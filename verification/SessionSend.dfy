/** The one-send-in-flight protocol of a session: `SendPacket`, `SendAsync`, `SendAsyncImpl`, `Disconnect` and
    `HandleSendComplete`, as a transition system with any number of callers and completion workers.

    Steps are as in `JobScheduler`; the send queue is used through what `LockFreeQueue.StepSimulates` states, with
    appending and counting as two steps and taking as one, since only the holder of the flag takes and it looks at the
    count before. Every posted send completes with a non-zero size. */
module SessionSend {
  import opened Tally
  import opened Sequences

  const MAX_SEND_MSG: nat := 200

  /** A serialized packet, by identity. */
  type Packet = int

  datatype Holder = Nobody | Agent(a: nat) | Flight | Stuck

  /** `arr` holds the packets of the batch being prepared, in flight or being freed, `batch` is
      `send_packet_count_`. History: `hist` is every packet appended, `posted` the batches sent, `freed` the
      packets deleted, `holder` where the right to send is. */
  datatype Sender = Sender(
    items: seq<Packet>,
    count: int,
    flag: bool,
    pending: bool,
    arr: seq<Packet>,
    batch: nat,
    hist: seq<Packet>,
    posted: seq<seq<Packet>>,
    freed: seq<Packet>,
    holder: Holder)

  datatype Pc =
    | Idle
    | SendCheck(p: Packet)
    | SendLink(p: Packet)
    | SendCount
    | Try
    | Have
    | Release
    | Recheck
    | Size
    | Overflow
    | Fill(i: nat)
    | Take(i: nat)
    | Commit(i: nat)
    | Post(i: nat)
    | CompDelete(i: nat)
    | CompReset
    | CompRelease
    | CompCheck
    | CompCount
    | Disconnect
  {
    /** Owns the flag. */
    predicate Owns() {
      || Have? || Release? || Size? || Overflow? || Fill? || Take? || Commit? || Post? || CompDelete? || CompReset?
      || CompRelease?
    }

    /** Will look at the queue or the flag again before it leaves. */
    predicate Wakes() { Try? || Recheck? || CompCheck? || CompCount? }

    predicate Completes() { CompDelete? || CompReset? || CompRelease? }
  }

  datatype System = System(x: Sender, pcs: map<nat, Pc>)

  datatype Choice = Send(p: Packet) | Complete | Drop

  ghost predicate Init(s: System) {
    && s.x == Sender([], 0, false, false, [], 0, [], [], [], Nobody)
    && forall a :: a in s.pcs ==> s.pcs[a] == Idle
  }

  /** A completion needs a send in flight. */
  ghost predicate Enabled(pc: Pc, x: Sender, c: Choice) {
    pc.Idle? && c.Complete? ==> x.holder == Flight
  }

  ghost function NextPc(pc: Pc, x: Sender, c: Choice): Pc {
    match pc
    case Idle => (match c case Send(p) => SendCheck(p) case Complete => CompDelete(0) case Drop => Disconnect)
    case SendCheck(p) => if x.pending then Idle else SendLink(p)
    case SendLink(_) => SendCount
    case SendCount => Try
    case Try => if x.flag then Idle else Have
    case Have => if x.count > 0 then Size else Release
    case Release => Recheck
    case Recheck => if x.count > 0 then Try else Idle
    case Size => if x.count > MAX_SEND_MSG then Overflow else Fill(0)
    case Overflow => Idle
    case Fill(i) => if i < MAX_SEND_MSG && x.count > 0 then Take(i) else if i == 0 then Overflow else Commit(i)
    case Take(i) => Fill(i + 1)
    case Commit(i) => Post(i)
    case Post(_) => Idle
    case CompDelete(i) => if i < x.batch then CompDelete(i + 1) else CompReset
    case CompReset => CompRelease
    case CompRelease => CompCheck
    case CompCheck => if x.pending then Idle else CompCount
    case CompCount => if x.count > 0 then Try else Idle
    case Disconnect => Idle
  }

  ghost function NextSender(pc: Pc, x: Sender, a: nat, c: Choice): Sender {
    match pc
    case Idle => if c.Complete? then x.(holder := Agent(a)) else x
    case SendLink(p) => x.(items := x.items + [p], hist := x.hist + [p])
    case SendCount => x.(count := x.count + 1)
    case Try => if x.flag then x else x.(flag := true, holder := Agent(a))
    case Release => x.(flag := false, holder := Nobody)
    case Overflow => x.(pending := true, holder := Stuck)
    case Take(i) =>
      if x.items == [] then x else x.(arr := x.arr + [x.items[0]], items := x.items[1..], count := x.count - 1)
    case Commit(i) => x.(batch := i)
    case Post(_) => x.(posted := x.posted + [x.arr], holder := Flight)
    case CompDelete(i) => if i < x.batch && i < |x.arr| then x.(freed := x.freed + [x.arr[i]]) else x
    case CompReset => x.(batch := 0, arr := [])
    case CompRelease => x.(flag := false, holder := Nobody)
    case Disconnect => x.(pending := true)
    case _ => x
  }

  ghost predicate Step(s: System, a: nat, c: Choice, s': System)
    requires a in s.pcs
  {
    && Enabled(s.pcs[a], s.x, c)
    && s' == System(NextSender(s.pcs[a], s.x, a, c), s.pcs[a := NextPc(s.pcs[a], s.x, c)])
  }

  ghost predicate Next(s: System, s': System) {
    exists a, c :: a in s.pcs && Step(s, a, c, s')
  }

  ghost predicate Run(tr: seq<System>) {
    && tr != [] && Init(tr[0])
    && forall i :: 0 <= i < |tr| - 1 ==> Next(tr[i], tr[i + 1])
  }

  // ----- the invariant -----

  /** The flag is set exactly while somebody holds the right to send: one caller or worker, the send in
      flight, or nobody any more after an overflow. */
  ghost predicate Token(s: System) {
    && (s.x.flag <==> s.x.holder != Nobody)
    && (forall a :: a in s.pcs && s.pcs[a].Owns() ==> s.x.holder == Agent(a))
    && (s.x.holder.Agent? ==> s.x.holder.a in s.pcs && s.pcs[s.x.holder.a].Owns())
    && (s.x.holder == Stuck ==> s.x.pending)
  }

  ghost predicate ArrOk(x: Sender, pc: Pc) {
    match pc
    case Have => x.arr == []
    case Release => x.arr == []
    case Size => x.arr == [] && x.count > 0
    case Overflow => x.arr == []
    case Fill(i) => |x.arr| == i <= MAX_SEND_MSG && (i == 0 ==> x.count > 0)
    case Take(i) => |x.arr| == i < MAX_SEND_MSG && x.count > 0
    case Commit(i) => |x.arr| == i && 1 <= i <= MAX_SEND_MSG
    case Post(i) => |x.arr| == i == x.batch && 1 <= i <= MAX_SEND_MSG
    case CompDelete(i) => i <= |x.arr| == x.batch
    case CompReset => true
    case CompRelease => x.arr == []
    case _ => true
  }

  ghost predicate Arr(s: System) {
    && (s.x.holder == Nobody || s.x.holder == Stuck ==> s.x.arr == [])
    && (s.x.holder == Flight ==> |s.x.arr| == s.x.batch && 1 <= s.x.batch <= MAX_SEND_MSG)
    && (s.x.holder.Agent? && s.x.holder.a in s.pcs ==> ArrOk(s.x, s.pcs[s.x.holder.a]))
  }

  ghost predicate Batches(x: Sender) {
    forall i :: 0 <= i < |x.posted| ==> 1 <= |x.posted[i]| <= MAX_SEND_MSG
  }

  ghost predicate IsPosted(s: System) {
    s.x.holder == Flight || (s.x.holder.Agent? && s.x.holder.a in s.pcs && s.pcs[s.x.holder.a].Completes())
  }

  /** The batch taken from the queue and not yet sent. */
  ghost function Prepared(s: System): seq<Packet> {
    if IsPosted(s) then [] else s.x.arr
  }

  /** The packets sent and not yet freed. */
  ghost function Unfreed(s: System): seq<Packet> {
    if s.x.holder == Flight then s.x.arr
    else if s.x.holder.Agent? && s.x.holder.a in s.pcs && s.pcs[s.x.holder.a].CompDelete?
            && s.pcs[s.x.holder.a].i <= |s.x.arr| then s.x.arr[s.pcs[s.x.holder.a].i..]
    else []
  }

  ghost predicate Order(s: System) {
    && Flat(s.x.posted) + Prepared(s) + s.x.items == s.x.hist
    && s.x.freed + Unfreed(s) == Flat(s.x.posted)
  }

  predicate Counting(pc: Pc) { pc.SendCount? }

  ghost predicate Counted(s: System) {
    s.x.count + Count(s.pcs, Counting) == |s.x.items|
  }

  /** No packet is forgotten: counted packets with the flag down are somebody's business. */
  ghost predicate Wake(s: System) {
    s.x.count > 0 && !s.x.flag && !s.x.pending ==> exists a :: a in s.pcs && s.pcs[a].Wakes()
  }

  ghost predicate Inv(s: System) { Token(s) && Arr(s) && Batches(s.x) && Order(s) && Counted(s) && Wake(s) }

  lemma InitInv(s: System)
    requires Init(s)
    ensures Inv(s)
  {
    CountZero(s.pcs, Counting);
  }

  // ----- the steps -----

  lemma StepToken(s: System, a: nat, c: Choice, s': System)
    requires a in s.pcs && Step(s, a, c, s') && Token(s)
    ensures Token(s')
  {
    var pc, pc' := s.pcs[a], s'.pcs[a];
    assert s'.pcs == s.pcs[a := pc'];
    if pc.Owns() || (pc.Idle? && c.Complete?) || (pc.Try? && !s.x.flag) {
      assert forall b :: b in s.pcs && b != a ==> !s.pcs[b].Owns();
    }
  }

  lemma StepCounted(s: System, a: nat, c: Choice, s': System)
    requires a in s.pcs && Step(s, a, c, s') && Counted(s)
    ensures Counted(s')
  {
    CountStep(s.pcs, a, s'.pcs[a], Counting);
  }

  lemma StepWake(s: System, a: nat, c: Choice, s': System)
    requires a in s.pcs && Step(s, a, c, s') && Wake(s)
    ensures Wake(s')
  {
    var pc, pc', y := s.pcs[a], s'.pcs[a], s'.x;
    if y.count > 0 && !y.flag && !y.pending && !pc'.Wakes() {
      assert s.x.count > 0 && !s.x.flag && !s.x.pending && !pc.Wakes();
      var b :| b in s.pcs && s.pcs[b].Wakes();
      assert s'.pcs[b] == s.pcs[b];
    } else if pc'.Wakes() {
      assert s'.pcs[a] == pc';
    }
  }

  lemma OwnerArr(x: Sender, pc: Pc, a: nat, c: Choice)
    requires pc.Owns() && ArrOk(x, pc) && Enabled(pc, x, c) && x.holder == Agent(a)
    requires pc.Take? ==> x.items != []
    ensures var y, pc' := NextSender(pc, x, a, c), NextPc(pc, x, c);
      && (pc'.Owns() ==> y.holder == Agent(a) && ArrOk(y, pc'))
      && (y.holder == Nobody || y.holder == Stuck ==> y.arr == [])
      && (y.holder == Flight ==> |y.arr| == y.batch && 1 <= y.batch <= MAX_SEND_MSG)
  {}

  /** Those who do not own the flag leave the batch alone and can only add to the count. */
  lemma StrangerFrame(x: Sender, pc: Pc, a: nat, c: Choice)
    requires !pc.Owns()
    ensures var y := NextSender(pc, x, a, c);
      && y.arr == x.arr && y.batch == x.batch && y.posted == x.posted && y.freed == x.freed && y.count >= x.count
      && (!(pc.Idle? && c.Complete?) && !(pc.Try? && !x.flag) ==> y.holder == x.holder && !NextPc(pc, x, c).Owns())
  {}

  lemma MoreCount(x: Sender, y: Sender, pc: Pc)
    requires ArrOk(x, pc) && y.arr == x.arr && y.batch == x.batch && y.count >= x.count
    ensures ArrOk(y, pc)
  {}

  lemma OwnerStepArr(s: System, a: nat, c: Choice, s': System)
    requires a in s.pcs && Step(s, a, c, s') && s.x.holder == Agent(a) && s.pcs[a].Owns() && ArrOk(s.x, s.pcs[a])
    requires Token(s')
    requires s.pcs[a].Take? ==> s.x.items != []
    ensures Arr(s')
  {
    OwnerArr(s.x, s.pcs[a], a, c);
    assert s'.pcs[a] == NextPc(s.pcs[a], s.x, c);
  }

  lemma StrangerStepArr(s: System, a: nat, c: Choice, s': System)
    requires a in s.pcs && Step(s, a, c, s') && Token(s) && Arr(s) && !s.pcs[a].Owns()
    ensures Arr(s')
  {
    var pc, x := s.pcs[a], s.x;
    StrangerFrame(x, pc, a, c);
    if x.holder.Agent? {
      assert x.holder.a != a;
      MoreCount(x, s'.x, s.pcs[x.holder.a]);
    }
  }

  lemma PostedFrame(x: Sender, pc: Pc, a: nat, c: Choice)
    ensures NextSender(pc, x, a, c).posted == if pc.Post? then x.posted + [x.arr] else x.posted
    ensures NextSender(pc, x, a, c).hist == if pc.SendLink? then x.hist + [pc.p] else x.hist
    ensures !pc.SendLink? && !pc.Take? ==> NextSender(pc, x, a, c).items == x.items
    ensures !pc.Take? && !pc.CompReset? ==> NextSender(pc, x, a, c).arr == x.arr
    ensures !pc.CompDelete? ==> NextSender(pc, x, a, c).freed == x.freed
  {}

  /** The right to send and the stage of the owner decide what part of `arr` is prepared or unfreed. */
  lemma OwnerParts(s: System, a: nat, c: Choice, s': System)
    requires a in s.pcs && Step(s, a, c, s') && s.x.holder == Agent(a) && s.pcs[a].Owns() && ArrOk(s.x, s.pcs[a])
    requires s.pcs[a].Take? ==> s.x.items != []
    ensures Prepared(s) == if s.pcs[a].Completes() then [] else s.x.arr
    ensures Prepared(s') == if s.pcs[a].Completes() || s.pcs[a].Post? then [] else s'.x.arr
    ensures Unfreed(s) == if s.pcs[a].CompDelete? then s.x.arr[s.pcs[a].i..] else []
    ensures Unfreed(s') == if s.pcs[a].Post? then s.x.arr else if s.pcs[a].CompDelete? && s.pcs[a].i < s.x.batch
                           then s.x.arr[s.pcs[a].i + 1..] else []
  {
    OwnerArr(s.x, s.pcs[a], a, c);
    assert s'.pcs[a] == NextPc(s.pcs[a], s.x, c);
  }

  lemma TakeOrder(flat: seq<Packet>, arr: seq<Packet>, items: seq<Packet>, hist: seq<Packet>)
    requires items != [] && flat + arr + items == hist
    ensures flat + (arr + [items[0]]) + items[1..] == hist
  {
    assert items == [items[0]] + items[1..];
  }

  lemma PostOrder(flat: seq<Packet>, arr: seq<Packet>, items: seq<Packet>, hist: seq<Packet>, freed: seq<Packet>)
    requires flat + arr + items == hist && freed + [] == flat
    ensures (flat + arr) + [] + items == hist && freed + arr == flat + arr
  {}

  lemma DeleteOrder(freed: seq<Packet>, arr: seq<Packet>, i: nat, flat: seq<Packet>)
    requires i < |arr| && freed + arr[i..] == flat
    ensures (freed + [arr[i]]) + arr[i + 1..] == flat
  {
    assert arr[i..] == [arr[i]] + arr[i + 1..];
  }

  lemma OwnerOrder(s: System, a: nat, c: Choice, s': System)
    requires a in s.pcs && Step(s, a, c, s') && s.x.holder == Agent(a) && s.pcs[a].Owns() && ArrOk(s.x, s.pcs[a])
    requires Order(s)
    requires s.pcs[a].Take? ==> s.x.items != []
    ensures Order(s')
  {
    OwnerParts(s, a, c, s');
    PartsOrder(s.x, s.pcs[a], a, c, Prepared(s), Unfreed(s), Prepared(s'), Unfreed(s'));
  }

  lemma PartsOrder(x: Sender, pc: Pc, a: nat, c: Choice, prepared: seq<Packet>, unfreed: seq<Packet>,
                   prepared': seq<Packet>, unfreed': seq<Packet>)
    requires pc.Owns() && ArrOk(x, pc) && Enabled(pc, x, c)
    requires Flat(x.posted) + prepared + x.items == x.hist && x.freed + unfreed == Flat(x.posted)
    requires prepared == if pc.Completes() then [] else x.arr
    requires prepared' == if pc.Completes() || pc.Post? then [] else NextSender(pc, x, a, c).arr
    requires unfreed == if pc.CompDelete? then x.arr[pc.i..] else []
    requires unfreed' == if pc.Post? then x.arr else if pc.CompDelete? && pc.i < x.batch then x.arr[pc.i + 1..] else []
    requires pc.Take? ==> x.items != []
    ensures var y := NextSender(pc, x, a, c);
      Flat(y.posted) + prepared' + y.items == y.hist && y.freed + unfreed' == Flat(y.posted)
  {
    PostedFrame(x, pc, a, c);
    if pc.Post? {
      FlatOneMore(x.posted, x.arr);
      PostOrder(Flat(x.posted), x.arr, x.items, x.hist, x.freed);
    } else if pc.Take? {
      TakeOrder(Flat(x.posted), x.arr, x.items, x.hist);
    } else if pc.CompDelete? && pc.i < x.batch {
      DeleteOrder(x.freed, x.arr, pc.i, Flat(x.posted));
    } else {
      assert prepared' == prepared && unfreed' == unfreed;
    }
  }

  lemma StrangerParts(s: System, a: nat, c: Choice, s': System)
    requires a in s.pcs && Step(s, a, c, s') && Token(s) && Arr(s) && !s.pcs[a].Owns()
    ensures Prepared(s') == Prepared(s) && Unfreed(s') == Unfreed(s)
  {
    var pc, x := s.pcs[a], s.x;
    StrangerFrame(x, pc, a, c);
    if x.holder.Agent? {
      assert x.holder.a != a && s'.pcs[x.holder.a] == s.pcs[x.holder.a];
    } else {
      assert s'.pcs[a] == NextPc(pc, x, c);
      assert x.arr[0..] == x.arr;
    }
  }

  lemma StrangerOrder(s: System, a: nat, c: Choice, s': System)
    requires a in s.pcs && Step(s, a, c, s') && Token(s) && Arr(s) && Order(s) && !s.pcs[a].Owns()
    ensures Order(s')
  {
    var pc, x := s.pcs[a], s.x;
    StrangerParts(s, a, c, s');
    PostedFrame(x, pc, a, c);
    if pc.SendLink? {
      assert Flat(x.posted) + Prepared(s) + (x.items + [pc.p]) == Flat(x.posted) + Prepared(s) + x.items + [pc.p];
    }
  }

  lemma StepBatches(s: System, a: nat, c: Choice, s': System)
    requires a in s.pcs && Step(s, a, c, s') && Token(s) && Arr(s) && Batches(s.x)
    ensures Batches(s'.x)
  {
    PostedFrame(s.x, s.pcs[a], a, c);
  }

  lemma StepInv(s: System, s': System)
    requires Inv(s) && Next(s, s')
    ensures Inv(s')
  {
    var a, c :| a in s.pcs && Step(s, a, c, s');
    StepToken(s, a, c, s');
    StepBatches(s, a, c, s');
    if s.pcs[a].Owns() {
      assert ArrOk(s.x, s.pcs[a]);
      OwnerStepArr(s, a, c, s');
      OwnerOrder(s, a, c, s');
    } else {
      StrangerStepArr(s, a, c, s');
      StrangerOrder(s, a, c, s');
    }
    StepCounted(s, a, c, s');
    StepWake(s, a, c, s');
  }

  // ----- results -----

  lemma {:induction false} RunInv(tr: seq<System>, n: nat)
    requires Run(tr) && n < |tr|
    ensures Inv(tr[n])
  {
    if n == 0 {
      InitInv(tr[0]);
    } else {
      RunInv(tr, n - 1);
      assert Next(tr[n - 1], tr[n - 1 + 1]);
      StepInv(tr[n - 1], tr[n]);
    }
  }

  /** At most one send is in flight or being prepared or completed, and the flag says so. */
  lemma OneSendAtATime(tr: seq<System>, n: nat)
    requires Run(tr) && n < |tr|
    ensures forall a, b :: a in tr[n].pcs && b in tr[n].pcs && tr[n].pcs[a].Owns() && tr[n].pcs[b].Owns() ==> a == b
    ensures tr[n].x.holder == Flight ==> tr[n].x.flag && forall a :: a in tr[n].pcs ==> !tr[n].pcs[a].Owns()
    ensures (exists a :: a in tr[n].pcs && tr[n].pcs[a].Owns()) ==> tr[n].x.flag
  {
    RunInv(tr, n);
  }

  /** Each batch has 1 to 200 packets; the batches sent, the batch being prepared and the queue are together
      the packets in the order they were enqueued; and each packet is freed once, in that order, after its
      batch was sent. */
  lemma SendOrder(tr: seq<System>, n: nat)
    requires Run(tr) && n < |tr|
    ensures forall i :: 0 <= i < |tr[n].x.posted| ==> 1 <= |tr[n].x.posted[i]| <= MAX_SEND_MSG
    ensures Flat(tr[n].x.posted) + Prepared(tr[n]) + tr[n].x.items == tr[n].x.hist
    ensures tr[n].x.freed + Unfreed(tr[n]) == Flat(tr[n].x.posted)
  {
    RunInv(tr, n);
  }

  /** With no call in progress, a queue that is not empty implies a send in flight or a disconnect. */
  lemma NothingLeftBehind(tr: seq<System>, n: nat)
    requires Run(tr) && n < |tr| && forall a :: a in tr[n].pcs ==> tr[n].pcs[a] == Idle
    requires tr[n].x.items != []
    ensures tr[n].x.holder == Flight || tr[n].x.pending
  {
    RunInv(tr, n);
    CountZero(tr[n].pcs, Counting);
  }
}
