/** The unified packet header and the reassembly of packets from arbitrary receive completions. */
module Framing {
  import opened RingBuffers
  import opened Sequences

  const HEADER_SIZE: nat := 8
  const MAX_PACKET_SIZE: nat := 4 * 1024 * 1024
  const MAX_LOOP_COUNT: nat := 1000
  const RECV_CAPACITY: nat := BUF_SIZE - 1

  datatype Packet = Packet(id: nat, payload: seq<Byte>) {
    function Size(): nat { HEADER_SIZE + |payload| }

    /** What the senders produce: a 32-bit id and a length that the 32-bit length field can hold. */
    predicate Valid() { id < 0x1_0000_0000 && Size() <= MAX_PACKET_SIZE }
  }

  /** `uint32_t` in memory, least significant byte first. */
  function U32(n: nat): (b: seq<Byte>)
    requires n < 0x1_0000_0000
    ensures |b| == 4
  {
    [n % 256, n / 256 % 256, n / 65536 % 256, n / 16777216]
  }

  function LittleEndian(b: seq<Byte>): nat {
    if b == [] then 0 else b[0] as int + 256 * LittleEndian(b[1..])
  }

  function ReadU32(b: seq<Byte>): (n: nat)
    requires |b| >= 4
  {
    LittleEndian(b[..4])
  }

  lemma U32RoundTrip(n: nat, rest: seq<Byte>)
    requires n < 0x1_0000_0000
    ensures ReadU32(U32(n) + rest) == n
  {
    var b := U32(n);
    assert (b + rest)[..4] == b;
    calc {
      LittleEndian(b);
      b[0] as int + 256 * LittleEndian(b[1..]);
      { assert b[1..][1..] == b[2..]; }
      b[0] as int + 256 * (b[1] as int + 256 * LittleEndian(b[2..]));
      { assert b[2..][1..] == b[3..]; }
      b[0] as int + 256 * (b[1] as int + 256 * (b[2] as int + 256 * LittleEndian(b[3..])));
      { assert b[3..][1..] == []; }
      n;
    }
  }

  predicate IsValidPacketSize(size: nat) { HEADER_SIZE <= size <= MAX_PACKET_SIZE }

  function Serialize(p: Packet): (b: seq<Byte>)
    requires p.Valid()
    ensures |b| == p.Size()
  {
    U32(p.Size()) + U32(p.id) + p.payload
  }

  /** A complete packet as the receive loop takes it apart. */
  function Parse(b: seq<Byte>): (p: Packet)
    requires |b| >= HEADER_SIZE
  {
    Packet(ReadU32(b[4..]), b[HEADER_SIZE..])
  }

  lemma ParseSerialize(p: Packet, rest: seq<Byte>)
    requires p.Valid()
    ensures ReadU32(Serialize(p) + rest) == p.Size()
    ensures (Serialize(p) + rest)[..p.Size()] == Serialize(p) && Parse(Serialize(p)) == p
  {
    var b := Serialize(p);
    U32RoundTrip(p.Size(), U32(p.id) + p.payload + rest);
    assert b + rest == U32(p.Size()) + (U32(p.id) + p.payload + rest);
    U32RoundTrip(p.id, p.payload);
    assert b[4..] == U32(p.id) + p.payload;
    assert b[HEADER_SIZE..] == p.payload;
  }

  /** Why one run of the receive loop ended. */
  datatype Outcome = NeedMore | BadLength | LoopGuard

  datatype Drained = Drained(packets: seq<Packet>, rest: seq<Byte>, outcome: Outcome) {
    function Prepend(p: Packet): Drained { this.(packets := [p] + packets) }
  }

  /** One iteration of the receive loop: it stops, or takes one packet and leaves the rest. */
  datatype Turn = Stop(outcome: Outcome) | Took(packet: Packet, rest: seq<Byte>)

  function TakeFrame(b: seq<Byte>): (r: Turn)
    ensures r.Took? ==> |r.rest| + HEADER_SIZE <= |b|
  {
    if |b| < HEADER_SIZE then Stop(NeedMore)
    else if !IsValidPacketSize(ReadU32(b)) then Stop(BadLength)
    else if |b| < ReadU32(b) then Stop(NeedMore)
    else Took(Parse(b[..ReadU32(b)]), b[ReadU32(b)..])
  }

  /** The receive loop on the unread bytes, with `budget` iterations left and `take` as its iteration. */
  function Drain(take: seq<Byte> -> Turn, b: seq<Byte>, budget: nat): (d: Drained)
    decreases budget
    ensures |d.packets| <= budget
  {
    if budget == 0 then Drained([], b, LoopGuard)
    else
      match take(b)
      case Stop(outcome) => Drained([], b, outcome)
      case Took(p, rest) => Drain(take, rest, budget - 1).Prepend(p)
  }

  /** The result of a loop that has dispatched `done`, has `b` unread and `budget` iterations left. */
  ghost function Resumed(done: seq<Packet>, b: seq<Byte>, budget: nat): Drained {
    var d := Drain(TakeFrame, b, budget);
    Drained(done + d.packets, d.rest, d.outcome)
  }

  lemma ResumeStop(done: seq<Packet>, b: seq<Byte>, budget: nat)
    requires budget == 0 || TakeFrame(b).Stop?
    ensures Resumed(done, b, budget) == Drained(done, b, if budget == 0 then LoopGuard else TakeFrame(b).outcome)
  {}

  lemma ResumeTook(done: seq<Packet>, b: seq<Byte>, budget: nat)
    requires budget > 0 && TakeFrame(b).Took?
    ensures Resumed(done, b, budget) == Resumed(done + [TakeFrame(b).packet], TakeFrame(b).rest, budget - 1)
  {
    var d := Drain(TakeFrame, TakeFrame(b).rest, budget - 1);
    assert done + ([TakeFrame(b).packet] + d.packets) == done + [TakeFrame(b).packet] + d.packets;
  }

  // ----- the reference: a stream of frames -----

  /** The bytes `e` are one frame carrying `p`: found complete it is taken, cut short it is waited for. */
  ghost predicate Framed(take: seq<Byte> -> Turn, e: seq<Byte>, p: Packet) {
    forall b :: (e <= b ==> take(b) == Took(p, b[|e|..])) && (b < e ==> take(b) == Stop(NeedMore))
  }

  ghost predicate AllFramed(take: seq<Byte> -> Turn, es: seq<seq<Byte>>, ps: seq<Packet>)
    ensures AllFramed(take, es, ps) ==> |es| == |ps|
  {
    if es == [] then ps == [] && take([]) == Stop(NeedMore)
    else ps != [] && Framed(take, es[0], ps[0]) && AllFramed(take, es[1..], ps[1..])
  }

  ghost function Stream(es: seq<seq<Byte>>): seq<Byte> {
    if es == [] then [] else es[0] + Stream(es[1..])
  }

  /** How many frames of the stream end within its first `n` bytes. */
  ghost function Complete(es: seq<seq<Byte>>, n: int): (k: nat)
    ensures k <= |es|
  {
    if es == [] || n < |es[0]| then 0 else 1 + Complete(es[1..], n - |es[0]|)
  }

  /** The bytes of the first `k` frames. */
  ghost function Offset(es: seq<seq<Byte>>, k: nat): nat
    requires k <= |es|
  {
    if k == 0 then 0 else |es[0]| + Offset(es[1..], k - 1)
  }

  lemma {:induction false} CompleteOffset(es: seq<seq<Byte>>, n: nat)
    ensures Offset(es, Complete(es, n)) <= n
    ensures Complete(es, n) < |es| ==> n - Offset(es, Complete(es, n)) < |es[Complete(es, n)]|
  {
    if es != [] && |es[0]| <= n {
      CompleteOffset(es[1..], n - |es[0]|);
    }
  }

  lemma OffsetNext(es: seq<seq<Byte>>, ps: seq<Packet>, b: seq<Byte>, k: nat)
    requires |es| == |ps| && k < |es| && |es[0]| <= |b| && Offset(es[1..], k) <= |b| - |es[0]|
    ensures Offset(es, k + 1) <= |b| && b[Offset(es, k + 1)..] == b[|es[0]|..][Offset(es[1..], k)..]
    ensures ps[..k + 1] == [ps[0]] + ps[1..][..k]
  {}

  lemma DrainNone(take: seq<Byte> -> Turn, es: seq<seq<Byte>>, ps: seq<Packet>, b: seq<Byte>, budget: nat)
    requires AllFramed(take, es, ps) && b <= Stream(es) && Complete(es, |b|) == 0 < budget
    ensures Drain(take, b, budget) == Drained([], b, NeedMore)
  {
    assert es != [] ==> b < es[0];
    assert take(b) == Stop(NeedMore);
  }

  lemma DrainOne(take: seq<Byte> -> Turn, es: seq<seq<Byte>>, ps: seq<Packet>, b: seq<Byte>, budget: nat)
    requires AllFramed(take, es, ps) && b <= Stream(es) && Complete(es, |b|) > 0 && budget > 0
    ensures |es[0]| <= |b| && b[|es[0]|..] <= Stream(es[1..])
    ensures Complete(es[1..], |b| - |es[0]|) == Complete(es, |b|) - 1
    ensures Drain(take, b, budget) == Drain(take, b[|es[0]|..], budget - 1).Prepend(ps[0])
  {
    assert es[0] <= b;
    assert take(b) == Took(ps[0], b[|es[0]|..]);
  }

  /** Draining a prefix of a stream yields its `k` complete packets, if the loop guard allows as many. */
  lemma {:induction false} DrainPrefix(take: seq<Byte> -> Turn, es: seq<seq<Byte>>, ps: seq<Packet>, b: seq<Byte>,
                                       budget: nat, k: nat)
    requires AllFramed(take, es, ps) && b <= Stream(es) && k == Complete(es, |b|) < budget
    ensures Offset(es, k) <= |b|
    ensures Drain(take, b, budget) == Drained(ps[..k], b[Offset(es, k)..], NeedMore)
    decreases |es|
  {
    if k == 0 {
      DrainNone(take, es, ps, b, budget);
      assert b[0..] == b && ps[..0] == [];
    } else {
      DrainOne(take, es, ps, b, budget);
      DrainPrefix(take, es[1..], ps[1..], b[|es[0]|..], budget - 1, k - 1);
      DrainedNext(es, ps, b, k - 1, Drain(take, b[|es[0]|..], budget - 1));
    }
  }

  lemma DrainedNext(es: seq<seq<Byte>>, ps: seq<Packet>, b: seq<Byte>, k: nat, d: Drained)
    requires |es| == |ps| && k < |es| && |es[0]| <= |b| && Offset(es[1..], k) <= |b| - |es[0]|
    requires d == Drained(ps[1..][..k], b[|es[0]|..][Offset(es[1..], k)..], NeedMore)
    ensures Offset(es, k + 1) <= |b| && d.Prepend(ps[0]) == Drained(ps[..k + 1], b[Offset(es, k + 1)..], NeedMore)
  {
    OffsetNext(es, ps, b, k);
  }

  /** With at least as many complete frames as iterations the loop guard fires after that many. */
  lemma {:induction false} DrainGuarded(take: seq<Byte> -> Turn, es: seq<seq<Byte>>, ps: seq<Packet>, b: seq<Byte>,
                                        budget: nat)
    requires AllFramed(take, es, ps) && b <= Stream(es) && Complete(es, |b|) >= budget
    ensures Drain(take, b, budget).outcome == LoopGuard && Drain(take, b, budget).packets == ps[..budget]
    decreases budget
  {
    if budget > 0 {
      assert es[0] <= b;
      assert take(b) == Took(ps[0], b[|es[0]|..]);
      DrainGuarded(take, es[1..], ps[1..], b[|es[0]|..], budget - 1);
      assert ps[..budget] == [ps[0]] + ps[1..][..budget - 1];
    }
  }

  // ----- whole connections -----

  /** What a connection has dispatched and still buffers, and whether it will post another receive. */
  datatype Conn = Conn(delivered: seq<Packet>, buffered: seq<Byte>, reading: bool)

  /** One receive completion of `chunk`, with the loop guard at `guard` iterations. */
  ghost function Receive(take: seq<Byte> -> Turn, guard: nat, c: Conn, chunk: seq<Byte>): Conn {
    var d := Drain(take, c.buffered + chunk, guard);
    Conn(c.delivered + d.packets, d.rest, c.reading && d.outcome == NeedMore)
  }

  ghost function ReceiveAll(take: seq<Byte> -> Turn, guard: nat, chunks: seq<seq<Byte>>): Conn {
    if chunks == [] then Conn([], [], true)
    else Receive(take, guard, ReceiveAll(take, guard, chunks[..|chunks| - 1]), chunks[|chunks| - 1])
  }

  /** No completion brings more bytes than the buffer had free when its receive was posted. */
  ghost predicate Fit(take: seq<Byte> -> Turn, guard: nat, chunks: seq<seq<Byte>>) {
    chunks == [] || (Fit(take, guard, chunks[..|chunks| - 1])
      && |ReceiveAll(take, guard, chunks[..|chunks| - 1]).buffered| + |chunks[|chunks| - 1]| <= RECV_CAPACITY)
  }

  /** Frames with at least `lo` bytes that fit the receive buffer. */
  ghost predicate Between(es: seq<seq<Byte>>, lo: nat) {
    forall i :: 0 <= i < |es| ==> lo <= |es[i]| <= RECV_CAPACITY
  }

  lemma {:induction false} CompleteBound(es: seq<seq<Byte>>, n: nat)
    requires Between(es, HEADER_SIZE + 1)
    ensures (HEADER_SIZE + 1) * Complete(es, n) <= n
  {
    if es != [] && |es[0]| <= n {
      CompleteBound(es[1..], n - |es[0]|);
    }
  }

  /** Skipping `k` complete frames of a stream. */
  lemma Skip(es: seq<seq<Byte>>, k: nat, n: nat)
    requires k <= Complete(es, n)
    ensures Offset(es, k) <= n && Complete(es, n) == k + Complete(es[k..], n - Offset(es, k))
    ensures Offset(es, k) <= |Stream(es)| && Stream(es)[Offset(es, k)..] == Stream(es[k..])
  {
    SkipFrames(es, k, n);
    SkipBytes(es, k);
  }

  lemma {:induction false} SkipFrames(es: seq<seq<Byte>>, k: nat, n: nat)
    requires k <= Complete(es, n)
    ensures Offset(es, k) <= n && Complete(es, n) == k + Complete(es[k..], n - Offset(es, k))
  {
    if k == 0 {
      assert es[0..] == es;
    } else {
      SkipFrames(es[1..], k - 1, n - |es[0]|);
      assert es[1..][k - 1..] == es[k..];
    }
  }

  lemma {:induction false} SkipBytes(es: seq<seq<Byte>>, k: nat)
    requires k <= |es|
    ensures Offset(es, k) <= |Stream(es)| && Stream(es)[Offset(es, k)..] == Stream(es[k..])
  {
    if k == 0 {
      assert es[0..] == es && Stream(es)[0..] == Stream(es);
    } else {
      SkipBytes(es[1..], k - 1);
      assert es[1..][k - 1..] == es[k..];
      DropBoth(es[0], Stream(es[1..]), Offset(es[1..], k - 1));
    }
  }

  lemma DropBoth(a: seq<Byte>, b: seq<Byte>, n: nat)
    requires n <= |b|
    ensures (a + b)[|a| + n..] == b[n..]
  {}

  lemma {:induction false} OffsetSplit(es: seq<seq<Byte>>, k: nat, j: nat)
    requires k + j <= |es|
    ensures Offset(es, k + j) == Offset(es, k) + Offset(es[k..], j)
  {
    if k == 0 {
      assert es[0..] == es;
    } else {
      OffsetSplit(es[1..], k - 1, j);
      assert es[1..][k - 1..] == es[k..];
    }
  }

  lemma {:induction false} FramedSuffix(take: seq<Byte> -> Turn, es: seq<seq<Byte>>, ps: seq<Packet>, k: nat)
    requires AllFramed(take, es, ps) && k <= |es|
    ensures AllFramed(take, es[k..], ps[k..])
  {
    if k == 0 {
      assert es[0..] == es && ps[0..] == ps;
    } else {
      FramedSuffix(take, es[1..], ps[1..], k - 1);
      assert es[1..][k - 1..] == es[k..] && ps[1..][k - 1..] == ps[k..];
    }
  }

  lemma Shift(got: seq<Byte>, chunk: seq<Byte>, s: seq<Byte>, o: nat, q: nat)
    requires got + chunk <= s && o <= |got| && o + q <= |got| + |chunk|
    ensures got[o..] + chunk <= s[o..] && (got[o..] + chunk)[q..] == (got + chunk)[o + q..]
  {
    assert got[o..] + chunk == (got + chunk)[o..];
  }

  /** The frames that become complete when more arrives: `j` of those behind the first `k`. */
  lemma NewlyComplete(es: seq<seq<Byte>>, n: nat, m: nat, k: nat) returns (j: nat)
    requires n <= m && k == Complete(es, n)
    ensures Offset(es, k) <= n && j == Complete(es[k..], m - Offset(es, k)) && Complete(es, m) == k + j
    ensures Offset(es, k + j) == Offset(es, k) + Offset(es[k..], j) <= m
    ensures Offset(es, k) <= |Stream(es)| && Stream(es)[Offset(es, k)..] == Stream(es[k..])
  {
    CompleteMonotone(es, n, m);
    CompleteOffset(es, n);
    CompleteOffset(es, m);
    Skip(es, k, m);
    j := Complete(es[k..], m - Offset(es, k));
    OffsetSplit(es, k, j);
  }

  lemma BetweenSuffix(es: seq<seq<Byte>>, k: nat, lo: nat)
    requires Between(es, lo) && k <= |es|
    ensures Between(es[k..], lo)
  {}

  /** Fewer than 1000 frames of at least 9 bytes fit in the buffer. */
  lemma GuardStaysQuiet(es: seq<seq<Byte>>, n: nat)
    requires Between(es, HEADER_SIZE + 1) && n <= RECV_CAPACITY
    ensures Complete(es, n) < MAX_LOOP_COUNT
  {
    CompleteBound(es, n);
  }

  /** With `k` frames dispatched and `front` buffered, a chunk completes the first `j` of the other frames. */
  lemma MoreFacts(take: seq<Byte> -> Turn, es: seq<seq<Byte>>, ps: seq<Packet>, got: seq<Byte>, chunk: seq<Byte>,
                  k: nat, front: seq<Byte>)
    returns (es1: seq<seq<Byte>>, ps1: seq<Packet>, j: nat)
    requires AllFramed(take, es, ps) && Between(es, HEADER_SIZE + 1) && got + chunk <= Stream(es)
    requires k == Complete(es, |got|) && Offset(es, k) <= |got| && front == got[Offset(es, k)..]
    requires |front| + |chunk| <= RECV_CAPACITY
    ensures AllFramed(take, es1, ps1) && front + chunk <= Stream(es1)
    ensures j == Complete(es1, |front + chunk|) < MAX_LOOP_COUNT
    ensures k + j == Complete(es, |got + chunk|) && ps[..k + j] == ps[..k] + ps1[..j]
    ensures Offset(es, k + j) <= |got + chunk| && Offset(es1, j) <= |front + chunk|
    ensures (front + chunk)[Offset(es1, j)..] == (got + chunk)[Offset(es, k + j)..]
  {
    es1, ps1 := es[k..], ps[k..];
    j := NewlyComplete(es, |got|, |got| + |chunk|, k);
    Shift(got, chunk, Stream(es), Offset(es, k), Offset(es1, j));
    FramedSuffix(take, es, ps, k);
    BetweenSuffix(es, k, HEADER_SIZE + 1);
    GuardStaysQuiet(es1, |front + chunk|);
  }

  lemma {:induction false} CompleteMonotone(es: seq<seq<Byte>>, n: nat, m: nat)
    requires n <= m
    ensures Complete(es, n) <= Complete(es, m)
  {
    if es != [] && |es[0]| <= n {
      CompleteMonotone(es[1..], n - |es[0]|, m - |es[0]|);
    }
  }

  /** Framing does not depend on chunking: however a stream of frames of 9 to 8191 bytes is cut into
      completions, the packets dispatched are exactly those that arrived completely, in order; the rest
      stays buffered; the loop guard never fires; and the next receive has a free byte. */
  lemma {:induction false} ChunkingDoesNotMatter(take: seq<Byte> -> Turn, guard: nat, es: seq<seq<Byte>>,
                                                 ps: seq<Packet>, chunks: seq<seq<Byte>>)
    requires guard >= MAX_LOOP_COUNT
    requires AllFramed(take, es, ps) && Between(es, HEADER_SIZE + 1) && Flat(chunks) <= Stream(es)
    requires Fit(take, guard, chunks)
    ensures Arrived(take, guard, es, ps, chunks)
    ensures |ReceiveAll(take, guard, chunks).buffered| < RECV_CAPACITY
    decreases |chunks|
  {
    if chunks == [] {
      assert Flat(chunks)[0..] == [] && ps[..0] == [];
    } else {
      ChunkingDoesNotMatter(take, guard, es, ps, chunks[..|chunks| - 1]);
      OneMoreChunk(take, guard, es, ps, chunks);
    }
    LeftoverIsShort(es, |Flat(chunks)|);
  }

  /** The connection has dispatched the packets that arrived completely and buffers the rest. */
  ghost predicate Arrived(take: seq<Byte> -> Turn, guard: nat, es: seq<seq<Byte>>, ps: seq<Packet>,
                          chunks: seq<seq<Byte>>)
    requires |es| == |ps|
  {
    var k := Complete(es, |Flat(chunks)|);
    && Offset(es, k) <= |Flat(chunks)|
    && ReceiveAll(take, guard, chunks) == Conn(ps[..k], Flat(chunks)[Offset(es, k)..], true)
  }

  lemma OneMoreChunk(take: seq<Byte> -> Turn, guard: nat, es: seq<seq<Byte>>, ps: seq<Packet>, chunks: seq<seq<Byte>>)
    requires guard >= MAX_LOOP_COUNT
    requires chunks != [] && AllFramed(take, es, ps) && Between(es, HEADER_SIZE + 1) && Flat(chunks) <= Stream(es)
    requires Fit(take, guard, chunks) && Arrived(take, guard, es, ps, chunks[..|chunks| - 1])
    ensures Arrived(take, guard, es, ps, chunks)
  {
    var before, chunk := chunks[..|chunks| - 1], chunks[|chunks| - 1];
    var k := Complete(es, |Flat(before)|);
    var m := ReceiveMore(take, guard, es, ps, Flat(before), chunk, ReceiveAll(take, guard, before), k);
  }

  lemma ReceiveMore(take: seq<Byte> -> Turn, guard: nat, es: seq<seq<Byte>>, ps: seq<Packet>, got: seq<Byte>,
                    chunk: seq<Byte>, c: Conn, k: nat)
    returns (m: nat)
    requires guard >= MAX_LOOP_COUNT
    requires k == Complete(es, |got|) && k <= |es| == |ps| && Offset(es, k) <= |got|
    requires c == Conn(ps[..k], got[Offset(es, k)..], true) && |c.buffered| + |chunk| <= RECV_CAPACITY
    requires AllFramed(take, es, ps) && Between(es, HEADER_SIZE + 1) && got + chunk <= Stream(es)
    ensures m == Complete(es, |got + chunk|) && m <= |es| && Offset(es, m) <= |got + chunk|
    ensures Receive(take, guard, c, chunk) == Conn(ps[..m], (got + chunk)[Offset(es, m)..], true)
  {
    var es1, ps1, j := MoreFacts(take, es, ps, got, chunk, k, c.buffered);
    ReceiveSuffix(take, guard, es1, ps1, chunk, j, c);
    m := k + j;
    assert c.delivered + ps1[..j] == ps[..m];
    assert (c.buffered + chunk)[Offset(es1, j)..] == (got + chunk)[Offset(es, m)..];
  }

  lemma ReceiveSuffix(take: seq<Byte> -> Turn, guard: nat, es: seq<seq<Byte>>, ps: seq<Packet>, chunk: seq<Byte>,
                      j: nat, c: Conn)
    requires AllFramed(take, es, ps) && c.buffered + chunk <= Stream(es)
    requires j == Complete(es, |c.buffered + chunk|) < guard
    requires c.reading
    ensures Offset(es, j) <= |c.buffered + chunk|
    ensures Receive(take, guard, c, chunk) == Conn(c.delivered + ps[..j], (c.buffered + chunk)[Offset(es, j)..], true)
  {
    DrainPrefix(take, es, ps, c.buffered + chunk, guard, j);
  }

  lemma LeftoverIsShort(es: seq<seq<Byte>>, n: nat)
    requires Between(es, HEADER_SIZE + 1) && n <= |Stream(es)|
    ensures Offset(es, Complete(es, n)) <= n < Offset(es, Complete(es, n)) + RECV_CAPACITY
  {
    CompleteOffset(es, n);
    var k := Complete(es, n);
    if k == |es| {
      Skip(es, k, n);
      assert es[k..] == [];
    }
  }

  // ----- the loop guard -----

  /** The guard fires exactly when a completion leaves 1000 or more complete frames in the buffer. */
  lemma GuardExactlyWhen(es: seq<seq<Byte>>, ps: seq<Packet>, b: seq<Byte>)
    requires AllFramed(TakeFrame, es, ps) && b <= Stream(es)
    ensures Drain(TakeFrame, b, MAX_LOOP_COUNT).outcome == LoopGuard <==> Complete(es, |b|) >= MAX_LOOP_COUNT
  {
    if Complete(es, |b|) < MAX_LOOP_COUNT {
      DrainPrefix(TakeFrame, es, ps, b, MAX_LOOP_COUNT, Complete(es, |b|));
    } else {
      DrainGuarded(TakeFrame, es, ps, b, MAX_LOOP_COUNT);
    }
  }

  ghost function Repeat<T>(x: T, n: nat): seq<T> {
    if n == 0 then [] else [x] + Repeat(x, n - 1)
  }

  lemma {:induction false} RepeatedFrame(e: seq<Byte>, p: Packet, n: nat)
    requires Framed(TakeFrame, e, p)
    ensures AllFramed(TakeFrame, Repeat(e, n), Repeat(p, n))
    ensures |Stream(Repeat(e, n))| == n * |e| && Complete(Repeat(e, n), n * |e|) == n
  {
    if n > 0 {
      RepeatedFrame(e, p, n - 1);
      assert Repeat(e, n)[1..] == Repeat(e, n - 1) && Repeat(p, n)[1..] == Repeat(p, n - 1);
      assert n * |e| - |e| == (n - 1) * |e|;
    }
  }

  /** Serialized packets are frames, whatever follows them. */
  lemma SerializeFrames(p: Packet)
    requires p.Valid()
    ensures Framed(TakeFrame, Serialize(p), p)
  {
    var e := Serialize(p);
    forall b ensures (e <= b ==> TakeFrame(b) == Took(p, b[|e|..])) && (b < e ==> TakeFrame(b) == Stop(NeedMore)) {
      if e <= b {
        WholeFrame(p, b);
      } else if b < e && |b| >= HEADER_SIZE {
        ParseSerialize(p, []);
        assert e + [] == e && b[..4] == e[..4];
      }
    }
  }

  lemma WholeFrame(p: Packet, b: seq<Byte>)
    requires p.Valid() && Serialize(p) <= b
    ensures TakeFrame(b) == Took(p, b[p.Size()..])
  {
    var e := Serialize(p);
    assert b == e + b[|e|..];
    ParseSerialize(p, b[|e|..]);
  }

  /** Packets without payload show that 9 bytes is the right bound: 1000 of them fit in the buffer, and the
      completion that brings them ends the connection's reading. */
  lemma EmptyPackets(n: nat) returns (b: seq<Byte>)
    requires n == MAX_LOOP_COUNT
    ensures |b| <= RECV_CAPACITY && b == Stream(Repeat(Serialize(Packet(0, [])), n))
    ensures Drain(TakeFrame, b, MAX_LOOP_COUNT).outcome == LoopGuard
  {
    var p := Packet(0, []);
    SerializeFrames(p);
    var e := Serialize(p);
    RepeatedFrame(e, p, n);
    b := Stream(Repeat(e, n));
    GuardExactlyWhen(Repeat(e, n), Repeat(p, n), b);
  }

  // ----- for the packets of this protocol -----

  ghost function Encode(ps: seq<Packet>): (es: seq<seq<Byte>>)
    requires forall i :: 0 <= i < |ps| ==> ps[i].Valid()
    ensures |es| == |ps| && forall i :: 0 <= i < |ps| ==> es[i] == Serialize(ps[i])
  {
    if ps == [] then [] else [Serialize(ps[0])] + Encode(ps[1..])
  }

  lemma {:induction false} EncodeFrames(ps: seq<Packet>)
    requires forall i :: 0 <= i < |ps| ==> ps[i].Valid()
    ensures AllFramed(TakeFrame, Encode(ps), ps)
  {
    if ps != [] {
      SerializeFrames(ps[0]);
      EncodeFrames(ps[1..]);
      assert Encode(ps)[1..] == Encode(ps[1..]);
    }
  }

  /** Packets that the receive buffer can hold and that carry a payload. */
  ghost predicate Deliverable(ps: seq<Packet>) {
    forall i :: 0 <= i < |ps| ==> ps[i].Valid() && 1 <= |ps[i].payload| && ps[i].Size() <= RECV_CAPACITY
  }

  lemma EncodeBetween(ps: seq<Packet>)
    requires Deliverable(ps)
    ensures AllFramed(TakeFrame, Encode(ps), ps) && Between(Encode(ps), HEADER_SIZE + 1)
  {
    EncodeFrames(ps);
  }

  lemma FramesArrive(take: seq<Byte> -> Turn, guard: nat, es: seq<seq<Byte>>, ps: seq<Packet>, chunks: seq<seq<Byte>>,
                     c: Conn)
    requires guard >= MAX_LOOP_COUNT
    requires AllFramed(take, es, ps) && Between(es, HEADER_SIZE + 1) && Flat(chunks) <= Stream(es)
    requires Fit(take, guard, chunks)
    requires c == ReceiveAll(take, guard, chunks)
    ensures c.delivered == ps[..Complete(es, |Flat(chunks)|)] && c.reading && |c.buffered| < RECV_CAPACITY
    ensures Flat(chunks) == Stream(es) ==> c.delivered == ps && c.buffered == []
  {
    ChunkingDoesNotMatter(take, guard, es, ps, chunks);
    if Flat(chunks) == Stream(es) {
      AllComplete(es);
      OffsetAll(es);
      assert ps[..|ps|] == ps;
    }
  }

  lemma {:induction false} AllComplete(es: seq<seq<Byte>>)
    ensures Complete(es, |Stream(es)|) == |es|
  {
    if es != [] {
      AllComplete(es[1..]);
    }
  }

  lemma {:induction false} OffsetAll(es: seq<seq<Byte>>)
    ensures Offset(es, |es|) == |Stream(es)|
  {
    if es != [] {
      OffsetAll(es[1..]);
    }
  }

  /** The claim for what `SendPacket` writes: packets with 1 to 8183 payload bytes arrive in order, each
      exactly when its last byte has, however the stream is cut; the connection keeps reading, always with
      a free byte; and when the whole stream is in, everything is delivered and nothing is left over. */
  lemma PacketsArrive(guard: nat, ps: seq<Packet>, es: seq<seq<Byte>>, chunks: seq<seq<Byte>>, c: Conn)
    requires guard >= MAX_LOOP_COUNT
    requires Deliverable(ps) && es == Encode(ps) && c == ReceiveAll(TakeFrame, guard, chunks)
    requires Flat(chunks) <= Stream(es) && Fit(TakeFrame, guard, chunks)
    ensures c.delivered == ps[..Complete(es, |Flat(chunks)|)] && c.reading && |c.buffered| < RECV_CAPACITY
    ensures Flat(chunks) == Stream(es) ==> c.delivered == ps && c.buffered == []
  {
    EncodeBetween(ps);
    FramesArrive(TakeFrame, guard, es, ps, chunks, c);
  }
}
