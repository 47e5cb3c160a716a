/** The asynchronous logger's ring: any number of producers in `LogAsync`, one consumer in
    `LoggerThreadFunc`. A message is an opaque value; formatting, levels and output are not modelled. */
module LoggerRing {

  const RING_BUFFER_SIZE: nat := 4096
  const INDEX_RANGE: nat := 0x1_0000_0000

  type Message = int

  datatype Slot = Slot(msg: Message, valid: bool)

  /** What the consumer does next: load the index, test the flag, process, clear the flag, advance. */
  datatype Consumer = Load | Test(at: nat) | Process(at: nat) | Clear(at: nat) | Advance

  /** `write` and `read` are the 32-bit indices. History: `w` and `r` are the claims and consumptions so far,
      `claims` the messages in claim order, `ready` which claims were published, `out` what was processed,
      `lost` what was dropped. */
  datatype Ring = Ring(
    write: nat,
    read: nat,
    slots: seq<Slot>,
    consumer: Consumer,
    w: nat,
    r: nat,
    claims: seq<Message>,
    ready: seq<bool>,
    out: seq<Message>,
    lost: seq<Message>)

  /** `wv` is the number of claims when the copied write index was read, or the number of the claim (history). */
  datatype Pc =
    | Idle
    | LoadWrite(m: Message)
    | LoadRead(m: Message, cw: nat, wv: nat)
    | Cas(m: Message, cw: nat, wv: nat, rv: nat)
    | Fill(m: Message, idx: nat, wv: nat)
    | Publish(m: Message, idx: nat, wv: nat)
  {
    predicate Copied() { LoadRead? || Cas? }

    predicate Claimed() { Fill? || Publish? }
  }

  datatype System = System(x: Ring, pcs: map<nat, Pc>)

  ghost predicate Init(s: System) {
    && |s.x.slots| == RING_BUFFER_SIZE && (forall j :: 0 <= j < RING_BUFFER_SIZE ==> !s.x.slots[j].valid)
    && s.x == Ring(0, 0, s.x.slots, Load, 0, 0, [], [], [], [])
    && forall a :: a in s.pcs ==> s.pcs[a] == Idle
  }

  /** The test of `LogAsync`: the position behind the copied write index against the read position. */
  predicate LooksFull(cw: nat, read: nat) {
    (cw + 1) % INDEX_RANGE % RING_BUFFER_SIZE == read % RING_BUFFER_SIZE
  }

  /** The exchange of the write index succeeds. */
  predicate Claims(pc: Pc, x: Ring, weak: bool) { pc.Cas? && x.write == pc.cw && !weak }

  /** A producer step; `m` is the message of a new call, `weak` a spurious failure of the exchange. */
  ghost function NextPc(pc: Pc, x: Ring, m: Message, weak: bool): Pc {
    match pc
    case Idle => LoadWrite(m)
    case LoadWrite(k) => LoadRead(k, x.write, x.w)
    case LoadRead(k, cw, wv) => if LooksFull(cw, x.read) then Idle else Cas(k, cw, wv, x.r)
    case Cas(k, cw, _, _) => if Claims(pc, x, weak) then Fill(k, cw % RING_BUFFER_SIZE, x.w) else LoadWrite(k)
    case Fill(k, idx, wv) => Publish(k, idx, wv)
    case Publish(_, _, _) => Idle
  }

  ghost function NextRing(pc: Pc, x: Ring, weak: bool): Ring
    requires |x.slots| == RING_BUFFER_SIZE
  {
    match pc
    case LoadRead(k, cw, _) => if LooksFull(cw, x.read) then x.(lost := x.lost + [k]) else x
    case Cas(k, cw, _, _) =>
      if Claims(pc, x, weak) then
        x.(write := (cw + 1) % INDEX_RANGE, w := x.w + 1, claims := x.claims + [k], ready := x.ready + [false])
      else x
    case Fill(k, idx, _) =>
      if idx < RING_BUFFER_SIZE then x.(slots := x.slots[idx := x.slots[idx].(msg := k)]) else x
    case Publish(_, idx, wv) =>
      if idx < RING_BUFFER_SIZE && wv < |x.ready| then
        x.(slots := x.slots[idx := x.slots[idx].(valid := true)], ready := x.ready[wv := true])
      else x
    case _ => x
  }

  ghost function Consume(x: Ring): Ring
    requires |x.slots| == RING_BUFFER_SIZE
  {
    match x.consumer
    case Load => x.(consumer := Test(x.read % RING_BUFFER_SIZE))
    case Test(at) => x.(consumer := if at < RING_BUFFER_SIZE && x.slots[at].valid then Process(at) else Load)
    case Process(at) =>
      if at < RING_BUFFER_SIZE then x.(consumer := Clear(at), out := x.out + [x.slots[at].msg]) else x
    case Clear(at) =>
      if at < RING_BUFFER_SIZE then x.(consumer := Advance, slots := x.slots[at := x.slots[at].(valid := false)]) else x
    case Advance => x.(consumer := Load, read := (x.read + 1) % INDEX_RANGE, r := x.r + 1)
  }

  ghost predicate Next(s: System, s': System) {
    && |s.x.slots| == RING_BUFFER_SIZE
    && (|| s' == s.(x := Consume(s.x))
        || exists a, m, weak :: a in s.pcs && Produces(s, a, m, weak, s'))
  }

  ghost predicate Produces(s: System, a: nat, m: Message, weak: bool, s': System)
    requires a in s.pcs && |s.x.slots| == RING_BUFFER_SIZE
  {
    s' == System(NextRing(s.pcs[a], s.x, weak), s.pcs[a := NextPc(s.pcs[a], s.x, m, weak)])
  }

  /** The one hypothesis, about a producer step: an exchange that succeeds finds fewer than 4095 messages unread. */
  predicate Roomy(x: Ring, pc: Pc, weak: bool) { Claims(pc, x, weak) ==> x.w < x.r + RING_BUFFER_SIZE - 1 }

  ghost predicate NextRoomy(s: System, s': System) {
    && |s.x.slots| == RING_BUFFER_SIZE
    && (|| s' == s.(x := Consume(s.x))
        || exists a, m, weak :: a in s.pcs && Produces(s, a, m, weak, s') && Roomy(s.x, s.pcs[a], weak))
  }

  ghost predicate Run(tr: seq<System>) {
    && tr != [] && Init(tr[0])
    && (forall i :: 0 <= i < |tr| - 1 ==> NextRoomy(tr[i], tr[i + 1]))
  }

  /** Fewer than 2^32 messages are claimed while one call holds its copy of the write index. */
  ghost predicate Bounded(s: System) {
    forall a :: a in s.pcs && s.pcs[a].Copied() ==> s.x.w < s.pcs[a].wv + INDEX_RANGE
  }

  ghost predicate BoundedRun(tr: seq<System>) {
    && tr != [] && Init(tr[0])
    && (forall i :: 0 <= i < |tr| - 1 ==> Next(tr[i], tr[i + 1]))
    && (forall i :: 0 <= i < |tr| ==> Bounded(tr[i]))
  }

  // ----- arithmetic of the indices -----

  /** The 32-bit wrap does not disturb ring positions, because the ring size divides the index range. */
  lemma WrapKeepsPosition(n: nat)
    ensures n % INDEX_RANGE % RING_BUFFER_SIZE == n % RING_BUFFER_SIZE
    ensures (n % INDEX_RANGE + 1) % INDEX_RANGE == (n + 1) % INDEX_RANGE
  {
    assert INDEX_RANGE == 1048576 * RING_BUFFER_SIZE;
    var q := n / INDEX_RANGE;
    assert n == q * INDEX_RANGE + n % INDEX_RANGE;
    assert n == (q * 1048576) * RING_BUFFER_SIZE + n % INDEX_RANGE;
  }

  lemma SamePosition(u: nat, v: nat)
    requires u <= v < u + RING_BUFFER_SIZE
    ensures u % RING_BUFFER_SIZE == v % RING_BUFFER_SIZE <==> u == v
  {}

  lemma SameIndex(v: nat, now: nat)
    requires v <= now < v + INDEX_RANGE
    ensures v % INDEX_RANGE == now % INDEX_RANGE <==> v == now
  {}

  // ----- the invariant -----

  /** At most 4095 messages are claimed and not consumed, so the claimed positions are different slots. */
  ghost predicate Window(x: Ring) {
    && |x.slots| == RING_BUFFER_SIZE && x.write == x.w % INDEX_RANGE && x.read == x.r % INDEX_RANGE
    && x.r <= x.w <= x.r + RING_BUFFER_SIZE - 1 && |x.claims| == x.w == |x.ready|
  }

  /** Position `v` has been published and not yet been cleared by the consumer. */
  predicate Unread(x: Ring, v: nat) {
    v < x.w && v < |x.ready| && x.ready[v] && !(v == x.r && x.consumer.Advance?)
  }

  /** The slot of position `v`, one of the 4096 positions from the read index on. */
  ghost predicate SlotOk(x: Ring, v: nat)
    requires Window(x) && x.r <= v < x.r + RING_BUFFER_SIZE
  {
    var slot := x.slots[v % RING_BUFFER_SIZE];
    (slot.valid <==> Unread(x, v)) && (Unread(x, v) ==> slot.msg == x.claims[v])
  }

  ghost predicate Slots(x: Ring) {
    Window(x) && forall v :: x.r <= v < x.r + RING_BUFFER_SIZE ==> SlotOk(x, v)
  }

  ghost predicate Consumption(x: Ring) {
    && Window(x)
    && (x.consumer.Process? || x.consumer.Clear? || x.consumer.Advance? ==> x.r < x.w && x.ready[x.r])
    && (x.consumer.Test? || x.consumer.Process? || x.consumer.Clear? ==> x.consumer.at == x.r % RING_BUFFER_SIZE)
    && x.out == x.claims[..if x.consumer.Clear? || x.consumer.Advance? then x.r + 1 else x.r]
  }

  ghost predicate PcOk(x: Ring, pc: Pc) {
    && Window(x)
    && (pc.Copied() ==> pc.wv <= x.w && pc.cw == pc.wv % INDEX_RANGE)
    && (pc.Cas? ==> pc.rv <= x.r && (pc.wv == x.w ==> pc.wv + 1 <= pc.rv + RING_BUFFER_SIZE - 1))
    && (pc.Claimed() ==>
         x.r <= pc.wv < x.w && !x.ready[pc.wv] && x.claims[pc.wv] == pc.m && pc.idx == pc.wv % RING_BUFFER_SIZE)
    && (pc.Publish? ==> x.slots[pc.idx].msg == pc.m)
  }

  ghost predicate Writers(s: System) {
    && (forall a :: a in s.pcs ==> PcOk(s.x, s.pcs[a]))
    && (forall a, b :: a in s.pcs && b in s.pcs && a != b && s.pcs[a].Claimed() && s.pcs[b].Claimed()
          ==> s.pcs[a].wv != s.pcs[b].wv)
    && (forall v :: s.x.r <= v < |s.x.ready| && !s.x.ready[v] ==>
         exists a :: a in s.pcs && s.pcs[a].Claimed() && s.pcs[a].wv == v)
  }

  ghost predicate Inv(s: System) { Slots(s.x) && Consumption(s.x) && Writers(s) }

  lemma InitInv(s: System)
    requires Init(s)
    ensures Inv(s)
  {}

  // ----- the steps -----

  lemma ConsumerWindow(x: Ring)
    requires Consumption(x) && SlotOk(x, x.r)
    ensures Window(Consume(x)) && Consumption(Consume(x))
  {
    WrapKeepsPosition(x.r);
  }

  lemma NextLap(u: nat)
    ensures (u + RING_BUFFER_SIZE) % RING_BUFFER_SIZE == u % RING_BUFFER_SIZE
  {}

  /** Clearing a slot, or moving past it, leaves the other slots of the window as they are. */
  lemma ConsumerSlot(x: Ring, v: nat)
    requires Consumption(x) && Window(Consume(x)) && Consume(x).r <= v < Consume(x).r + RING_BUFFER_SIZE
    requires SlotOk(x, x.r) && (x.r <= v < x.r + RING_BUFFER_SIZE ==> SlotOk(x, v))
    ensures SlotOk(Consume(x), v)
  {
    if v == x.r + RING_BUFFER_SIZE {
      NextLap(x.r);
    } else if x.consumer.Clear? {
      ClearedSlot(x, v);
    }
  }

  lemma ClearedSlot(x: Ring, v: nat)
    requires Consumption(x) && x.consumer.Clear? && x.r <= v < x.r + RING_BUFFER_SIZE && SlotOk(x, v)
    ensures Window(Consume(x)) && SlotOk(Consume(x), v)
  {
    SamePosition(x.r, v);
  }

  lemma ConsumerStep(x: Ring)
    requires Slots(x) && Consumption(x)
    ensures Slots(Consume(x)) && Consumption(Consume(x))
  {
    assert SlotOk(x, x.r);
    ConsumerWindow(x);
    var y := Consume(x);
    forall v | y.r <= v < y.r + RING_BUFFER_SIZE ensures SlotOk(y, v) {
      ConsumerSlot(x, v);
    }
  }

  lemma ConsumerKeepsPc(x: Ring, pc: Pc)
    requires Slots(x) && Consumption(x) && PcOk(x, pc)
    ensures PcOk(Consume(x), pc)
  {
    ConsumerStep(x);
    if pc.Publish? {
      SamePosition(x.r, pc.wv);
    }
  }

  /** An exchange that succeeds claims the slot of the current position. */
  lemma WinningClaim(x: Ring, pc: Pc)
    requires Window(x) && pc.Cas? && x.write == pc.cw
    ensures (pc.cw + 1) % INDEX_RANGE == (x.w + 1) % INDEX_RANGE && pc.cw % RING_BUFFER_SIZE == x.w % RING_BUFFER_SIZE
  {
    WrapKeepsPosition(x.w);
  }

  lemma ProducerStep(x: Ring, pc: Pc, weak: bool)
    requires Slots(x) && Consumption(x) && PcOk(x, pc) && Roomy(x, pc, weak)
    ensures Slots(NextRing(pc, x, weak)) && Consumption(NextRing(pc, x, weak))
  {
    var y := NextRing(pc, x, weak);
    if pc.Cas? && x.write == pc.cw {
      WinningClaim(x, pc);
    }
    forall v | y.r <= v < y.r + RING_BUFFER_SIZE ensures SlotOk(y, v) {
      assert SlotOk(x, v);
      if pc.Claimed() {
        if v <= pc.wv { SamePosition(v, pc.wv); } else { SamePosition(pc.wv, v); }
      }
    }
  }

  /** On any copied index, the full test compares positions in the ring. */
  lemma FullTest(wv: nat, r: nat)
    ensures LooksFull(wv % INDEX_RANGE, r % INDEX_RANGE) <==> (wv + 1) % RING_BUFFER_SIZE == r % RING_BUFFER_SIZE
  {
    WrapKeepsPosition(wv);
    WrapKeepsPosition(r);
    WrapKeepsPosition(wv + 1);
  }

  lemma OneLap(w: nat, r: nat)
    requires r <= w < r + RING_BUFFER_SIZE
    ensures (w + 1) % RING_BUFFER_SIZE == r % RING_BUFFER_SIZE <==> w == r + RING_BUFFER_SIZE - 1
  {}

  /** On current indices it says full exactly when 4095 messages are claimed and unread. */
  lemma FullExactly(x: Ring, cw: nat)
    requires Window(x) && cw == x.w % INDEX_RANGE
    ensures LooksFull(cw, x.read) <==> x.w == x.r + RING_BUFFER_SIZE - 1
  {
    FullTest(x.w, x.r);
    OneLap(x.w, x.r);
  }

  lemma OwnPc(x: Ring, pc: Pc, m: Message, weak: bool)
    requires Slots(x) && PcOk(x, pc)
    requires Window(NextRing(pc, x, weak))
    ensures PcOk(NextRing(pc, x, weak), NextPc(pc, x, m, weak))
  {
    if pc.Cas? && x.write == pc.cw {
      WinningClaim(x, pc);
    } else if pc.LoadRead? && pc.wv == x.w {
      FullExactly(x, pc.cw);
    }
  }

  lemma OtherPc(x: Ring, pc: Pc, weak: bool, other: Pc)
    requires Slots(x) && Consumption(x) && PcOk(x, pc) && PcOk(x, other) && Roomy(x, pc, weak)
    requires pc.Claimed() && other.Claimed() ==> pc.wv != other.wv
    ensures PcOk(NextRing(pc, x, weak), other)
  {
    ProducerStep(x, pc, weak);
    if pc.Claimed() && other.Claimed() {
      if pc.wv <= other.wv { SamePosition(pc.wv, other.wv); } else { SamePosition(other.wv, pc.wv); }
    }
  }

  lemma ProducerInv(s: System, a: nat, m: Message, weak: bool, s': System)
    requires Inv(s) && a in s.pcs && Produces(s, a, m, weak, s') && Roomy(s.x, s.pcs[a], weak)
    ensures Inv(s')
  {
    var x, pc := s.x, s.pcs[a];
    assert PcOk(x, pc);
    ProducerStep(x, pc, weak);
    forall b | b in s'.pcs ensures PcOk(s'.x, s'.pcs[b]) {
      if b == a { OwnPc(x, pc, m, weak); } else { OtherPc(x, pc, weak, s.pcs[b]); }
    }
    WritersDiffer(s, a, m, weak, s');
    WritersCover(s, a, m, weak, s');
  }

  lemma WritersDiffer(s: System, a: nat, m: Message, weak: bool, s': System)
    requires Writers(s) && a in s.pcs && Window(s.x) && Produces(s, a, m, weak, s')
    ensures forall b, c :: b in s'.pcs && c in s'.pcs && b != c && s'.pcs[b].Claimed() && s'.pcs[c].Claimed()
              ==> s'.pcs[b].wv != s'.pcs[c].wv
  {
    assert forall b :: b in s.pcs ==> PcOk(s.x, s.pcs[b]);
    if s.pcs[a].Cas? && s.x.write == s.pcs[a].cw {
      WinningClaim(s.x, s.pcs[a]);
    }
  }

  lemma WritersCover(s: System, a: nat, m: Message, weak: bool, s': System)
    requires Writers(s) && a in s.pcs && Window(s.x) && Produces(s, a, m, weak, s')
    ensures forall v :: s'.x.r <= v < |s'.x.ready| && !s'.x.ready[v]
              ==> exists b :: b in s'.pcs && s'.pcs[b].Claimed() && s'.pcs[b].wv == v
  {
    var pc := s.pcs[a];
    assert PcOk(s.x, pc);
    forall v | s'.x.r <= v < |s'.x.ready| && !s'.x.ready[v]
      ensures exists b :: b in s'.pcs && s'.pcs[b].Claimed() && s'.pcs[b].wv == v
    {
      if v == |s.x.ready| {
        WinningClaim(s.x, pc);
        assert s'.pcs[a].Claimed() && s'.pcs[a].wv == v;
      } else {
        var b :| b in s.pcs && s.pcs[b].Claimed() && s.pcs[b].wv == v;
        assert b in s'.pcs && s'.pcs[b].Claimed() && s'.pcs[b].wv == v;
      }
    }
  }

  lemma ConsumerInv(s: System, s': System)
    requires Inv(s) && s' == s.(x := Consume(s.x))
    ensures Inv(s')
  {
    ConsumerStep(s.x);
    forall a | a in s.pcs ensures PcOk(s'.x, s.pcs[a]) {
      ConsumerKeepsPc(s.x, s.pcs[a]);
    }
  }

  lemma StepInv(s: System, s': System)
    requires Inv(s) && NextRoomy(s, s')
    ensures Inv(s')
  {
    if s' == s.(x := Consume(s.x)) {
      ConsumerInv(s, s');
    } else {
      var a, m, weak :| a in s.pcs && Produces(s, a, m, weak, s') && Roomy(s.x, s.pcs[a], weak);
      ProducerInv(s, a, m, weak, s');
    }
  }

  // ----- results -----

  lemma {:induction false} RunInv(tr: seq<System>, n: nat)
    requires Run(tr) && n < |tr|
    ensures Inv(tr[n])
  {
    if n == 0 {
      InitInv(tr[0]);
    } else {
      RunInv(tr, n - 1);
      assert NextRoomy(tr[n - 1], tr[n - 1 + 1]);
      StepInv(tr[n - 1], tr[n]);
    }
  }

  /** The hypothesis is exact: a producer step keeps the ring in order if and only if, should it claim, there is
      room. */
  lemma ClaimInOrderExactlyWhen(s: System, a: nat, m: Message, weak: bool, s': System)
    requires Inv(s) && a in s.pcs && Produces(s, a, m, weak, s')
    ensures Inv(s') <==> Roomy(s.x, s.pcs[a], weak)
  {
    if Roomy(s.x, s.pcs[a], weak) {
      ProducerInv(s, a, m, weak, s');
    }
  }

  lemma BoundedStep(s: System, s': System)
    requires Inv(s) && Bounded(s) && Next(s, s')
    ensures NextRoomy(s, s')
  {
    if s' != s.(x := Consume(s.x)) {
      var a, m, weak :| a in s.pcs && Produces(s, a, m, weak, s');
      assert PcOk(s.x, s.pcs[a]);
      if Claims(s.pcs[a], s.x, weak) {
        SameIndex(s.pcs[a].wv, s.x.w);
      }
      assert Roomy(s.x, s.pcs[a], weak);
    }
  }

  lemma {:induction false} BoundedInv(tr: seq<System>, n: nat)
    requires BoundedRun(tr) && n < |tr|
    ensures Inv(tr[n])
  {
    if n == 0 {
      InitInv(tr[0]);
    } else {
      BoundedInv(tr, n - 1);
      BoundedStep(tr[n - 1], tr[n - 1 + 1]);
      StepInv(tr[n - 1], tr[n]);
    }
  }

  /** The full test ensures it as long as fewer than 2^32 messages are claimed during one call. */
  lemma BoundedRunIsRun(tr: seq<System>)
    requires BoundedRun(tr)
    ensures Run(tr)
  {
    forall i | 0 <= i < |tr| - 1 ensures NextRoomy(tr[i], tr[i + 1]) {
      BoundedInv(tr, i);
      BoundedStep(tr[i], tr[i + 1]);
    }
  }

  /** Through any number of 32-bit wraps, the messages processed followed by the messages claimed and unread
      are the messages in claim order, and at most 4095 are unread. */
  lemma ClaimOrder(tr: seq<System>, n: nat)
    requires Run(tr) && n < |tr|
    ensures tr[n].x.write == tr[n].x.w % INDEX_RANGE && tr[n].x.read == tr[n].x.r % INDEX_RANGE
    ensures tr[n].x.r <= tr[n].x.w <= tr[n].x.r + RING_BUFFER_SIZE - 1 && |tr[n].x.claims| == tr[n].x.w
    ensures tr[n].x.out <= tr[n].x.claims && tr[n].x.r <= |tr[n].x.out| <= tr[n].x.r + 1
  {
    RunInv(tr, n);
  }

  /** What the consumer is about to process is the completely written message of the oldest unread claim. */
  lemma ReadsWhatWasWritten(tr: seq<System>, n: nat)
    requires Run(tr) && n < |tr| && tr[n].x.consumer.Process?
    ensures tr[n].x.r < |tr[n].x.claims| && tr[n].x.consumer.at < |tr[n].x.slots|
    ensures tr[n].x.slots[tr[n].x.consumer.at].msg == tr[n].x.claims[tr[n].x.r]
    ensures forall a :: a in tr[n].pcs && tr[n].pcs[a].Claimed() ==> tr[n].pcs[a].idx != tr[n].x.consumer.at
  {
    RunInv(tr, n);
    var s := tr[n];
    assert SlotOk(s.x, s.x.r);
    forall a | a in s.pcs && s.pcs[a].Claimed() ensures s.pcs[a].idx != s.x.consumer.at {
      assert PcOk(s.x, s.pcs[a]);
      SamePosition(s.x.r, s.pcs[a].wv);
    }
  }

  /** A producer writes no slot that holds an unread message or that another producer is writing. */
  lemma WritesOnlyItsOwnSlot(tr: seq<System>, n: nat, a: nat)
    requires Run(tr) && n < |tr| && a in tr[n].pcs && tr[n].pcs[a].Claimed()
    ensures tr[n].pcs[a].idx < |tr[n].x.slots| && !tr[n].x.slots[tr[n].pcs[a].idx].valid
    ensures forall b :: b in tr[n].pcs && b != a && tr[n].pcs[b].Claimed() ==> tr[n].pcs[b].idx != tr[n].pcs[a].idx
  {
    RunInv(tr, n);
    var s := tr[n];
    var pc := s.pcs[a];
    assert PcOk(s.x, pc) && SlotOk(s.x, pc.wv);
    forall b | b in s.pcs && b != a && s.pcs[b].Claimed() ensures s.pcs[b].idx != pc.idx {
      assert PcOk(s.x, s.pcs[b]);
      if pc.wv <= s.pcs[b].wv { SamePosition(pc.wv, s.pcs[b].wv); } else { SamePosition(s.pcs[b].wv, pc.wv); }
    }
  }

  /** With no call in progress every claimed message is processed or waiting, complete, in its slot. */
  lemma NothingHalfWritten(tr: seq<System>, n: nat, v: nat)
    requires Run(tr) && n < |tr| && forall a :: a in tr[n].pcs ==> tr[n].pcs[a] == Idle
    requires |tr[n].x.out| <= v < |tr[n].x.claims|
    ensures |tr[n].x.slots| == RING_BUFFER_SIZE
    ensures tr[n].x.slots[v % RING_BUFFER_SIZE] == Slot(tr[n].x.claims[v], true)
  {
    RunInv(tr, n);
    var s := tr[n];
    assert SlotOk(s.x, v);
    assert s.x.ready[v];
  }

  /** A step of a producer loses a message exactly when it loads the read index and the ring looks full: while the
      consumer has not passed the copied write index, exactly when the ring is full; with room left in the ring, exactly
      when the consumer has passed it, by a whole number of laps and one. */
  lemma DropExactlyWhen(tr: seq<System>, n: nat, a: nat, m: Message, weak: bool, s': System)
    requires Run(tr) && n < |tr| && a in tr[n].pcs && |tr[n].x.slots| == RING_BUFFER_SIZE
    requires Produces(tr[n], a, m, weak, s')
    ensures s'.x.lost != tr[n].x.lost ==> tr[n].pcs[a].LoadRead? && s'.x.lost == tr[n].x.lost + [tr[n].pcs[a].m]
    ensures tr[n].pcs[a].LoadRead? ==>
      var x, wv, drops := tr[n].x, tr[n].pcs[a].wv, s'.x.lost != tr[n].x.lost;
      && (drops <==>
           if x.r <= wv then x.w == wv == x.r + RING_BUFFER_SIZE - 1 else (x.r - wv - 1) % RING_BUFFER_SIZE == 0)
      && (drops && x.w < x.r + RING_BUFFER_SIZE - 1 <==>
           wv < x.r && (x.r - wv - 1) % RING_BUFFER_SIZE == 0 && x.w < x.r + RING_BUFFER_SIZE - 1)
  {
    RunInv(tr, n);
    assert PcOk(tr[n].x, tr[n].pcs[a]);
    if tr[n].pcs[a].LoadRead? {
      FullTest(tr[n].pcs[a].wv, tr[n].x.r);
      DropLaps(tr[n].pcs[a].wv, tr[n].x.r, tr[n].x.w);
    }
  }

  lemma DropLaps(wv: nat, r: nat, w: nat)
    requires wv <= w && r <= w <= r + RING_BUFFER_SIZE - 1
    ensures r <= wv ==>
      ((wv + 1) % RING_BUFFER_SIZE == r % RING_BUFFER_SIZE <==> w == wv == r + RING_BUFFER_SIZE - 1)
    ensures wv < r ==>
      ((wv + 1) % RING_BUFFER_SIZE == r % RING_BUFFER_SIZE <==> (r - wv - 1) % RING_BUFFER_SIZE == 0)
  {
    if r <= wv {
      if wv + 1 < r + RING_BUFFER_SIZE { SamePosition(r, wv + 1); }
    } else {
      SameRemainder(wv + 1, r);
    }
  }

  lemma SameRemainder(u: nat, v: nat)
    requires u <= v
    ensures u % RING_BUFFER_SIZE == v % RING_BUFFER_SIZE <==> (v - u) % RING_BUFFER_SIZE == 0
  {}

  /** The consumer gets on: if the oldest unread message is published, five steps of it process that message, free the
      slot and move on to the next position. */
  lemma ConsumerGetsOn(x: Ring)
    requires Slots(x) && Consumption(x) && x.consumer == Load && x.r < x.w && x.ready[x.r]
    ensures var y1 := Consume(x); var y2 := Consume(y1); var y3 := Consume(y2); var y4 := Consume(y3);
      var y := Consume(y4);
      y.out == x.out + [x.claims[x.r]] && y.r == x.r + 1 && y.consumer == Load
  {
    assert SlotOk(x, x.r);
    WrapKeepsPosition(x.r);
  }
}
