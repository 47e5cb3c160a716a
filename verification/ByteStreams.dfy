/** The receive loop on arbitrary bytes, well formed or not: what it dispatches, what it leaves and why it stops. */
module ByteStreams {
  import opened RingBuffers
  import opened Framing

  /** One packet on the wire: its first four bytes give its own length. */
  predicate IsFrame(e: seq<Byte>) { HEADER_SIZE <= |e| <= MAX_PACKET_SIZE && ReadU32(e) == |e| }

  /** The length field is in and says less than a header or more than a packet may have. */
  predicate Malformed(b: seq<Byte>) { |b| >= HEADER_SIZE && !(HEADER_SIZE <= ReadU32(b) <= MAX_PACKET_SIZE) }

  /** More bytes are needed to tell the next packet. */
  predicate Cut(b: seq<Byte>) { |b| < HEADER_SIZE || (!Malformed(b) && |b| < ReadU32(b)) }

  /** The bytes are the frames `es` and then `rest`. */
  ghost predicate Splits(b: seq<Byte>, es: seq<seq<Byte>>, rest: seq<Byte>) {
    b == Stream(es) + rest && forall i :: 0 <= i < |es| ==> IsFrame(es[i])
  }

  ghost function Parsed(es: seq<seq<Byte>>): (ps: seq<Packet>)
    requires forall i :: 0 <= i < |es| ==> IsFrame(es[i])
    ensures |ps| == |es|
  {
    if es == [] then [] else assert IsFrame(es[0]); [Parse(es[0])] + Parsed(es[1..])
  }

  lemma TakesFrame(e: seq<Byte>, more: seq<Byte>)
    requires IsFrame(e)
    ensures TakeFrame(e + more) == Took(Parse(e), more)
  {
    assert (e + more)[..4] == e[..4] && (e + more)[..|e|] == e && (e + more)[|e|..] == more;
  }

  lemma StreamNext(es: seq<seq<Byte>>, rest: seq<Byte>)
    requires es != []
    ensures Stream(es) + rest == es[0] + (Stream(es[1..]) + rest)
  {}

  /** Frames followed by bytes that are cut short or malformed: the frames are dispatched, in order, the rest stays in
      the buffer, and the loop reports which of the two it is. With as many frames as iterations the guard stops
      it. */
  lemma {:induction false} DrainMeans(b: seq<Byte>, es: seq<seq<Byte>>, rest: seq<Byte>, budget: nat)
    requires Splits(b, es, rest) && |es| <= budget && (|es| < budget ==> Cut(rest) || Malformed(rest))
    ensures Drain(TakeFrame, b, budget) ==
      Drained(Parsed(es), rest, if |es| == budget then LoopGuard else if Malformed(rest) then BadLength else NeedMore)
    decreases |es|
  {
    if es == [] {
      assert b == rest;
    } else {
      StreamNext(es, rest);
      TakesFrame(es[0], Stream(es[1..]) + rest);
      DrainMeans(Stream(es[1..]) + rest, es[1..], rest, budget - 1);
    }
  }

  /** Every sequence of bytes is of this form, in one way only. */
  lemma {:induction false} Split(b: seq<Byte>, budget: nat) returns (es: seq<seq<Byte>>, rest: seq<Byte>)
    ensures Splits(b, es, rest) && |es| <= budget && (|es| < budget ==> Cut(rest) || Malformed(rest))
    decreases budget
  {
    if budget == 0 || Cut(b) || Malformed(b) {
      es, rest := [], b;
    } else {
      var e := b[..ReadU32(b)];
      assert e[..4] == b[..4] && b == e + b[ReadU32(b)..];
      var more;
      more, rest := Split(b[ReadU32(b)..], budget - 1);
      es := [e] + more;
      StreamNext(es, rest);
    }
  }

  lemma {:induction false} SplitsOnce(b: seq<Byte>, es: seq<seq<Byte>>, rest: seq<Byte>, es': seq<seq<Byte>>,
                                      rest': seq<Byte>)
    requires Splits(b, es, rest) && Splits(b, es', rest')
    requires (Cut(rest) || Malformed(rest)) && (Cut(rest') || Malformed(rest'))
    ensures es == es' && rest == rest'
  {
    FirstFrame(b, es, rest);
    FirstFrame(b, es', rest');
    if es != [] {
      var more := b[ReadU32(b)..];
      assert es[0] == es'[0] == b[..ReadU32(b)];
      SplitsOnce(more, es[1..], rest, es'[1..], rest');
      assert es == [es[0]] + es[1..] && es' == [es'[0]] + es'[1..];
    } else {
      assert b == rest && b == rest';
    }
  }

  lemma FirstFrame(b: seq<Byte>, es: seq<seq<Byte>>, rest: seq<Byte>)
    requires Splits(b, es, rest) && (Cut(rest) || Malformed(rest))
    ensures if es == [] then Cut(b) || Malformed(b)
            else !Cut(b) && !Malformed(b) && es[0] == b[..ReadU32(b)] && Splits(b[ReadU32(b)..], es[1..], rest)
  {
    if es == [] {
      assert b == rest;
    } else {
      StreamNext(es, rest);
      assert IsFrame(es[0]) && b[..4] == es[0][..4];
    }
  }

  /** So whatever arrives, the loop stops for a length that no packet can have exactly when such a length follows the
      complete packets, fewer than the guard allows; and then no further receive is posted. */
  lemma BadLengthExactlyWhen(c: Conn, chunk: seq<Byte>, guard: nat)
    requires c.reading
    ensures Drain(TakeFrame, c.buffered + chunk, guard).outcome == BadLength <==>
      exists es, rest :: Splits(c.buffered + chunk, es, rest) && |es| < guard && Malformed(rest)
    ensures (exists es, rest :: Splits(c.buffered + chunk, es, rest) && |es| < guard && Malformed(rest)) ==>
      !Receive(TakeFrame, guard, c, chunk).reading
  {
    var b := c.buffered + chunk;
    var es, rest := Split(b, guard);
    DrainMeans(b, es, rest, guard);
    forall fs, tail | Splits(b, fs, tail) && |fs| < guard && Malformed(tail)
      ensures Drain(TakeFrame, b, guard).outcome == BadLength
    {
      DrainMeans(b, fs, tail, guard);
    }
  }
}
