/** `LFObjectPoolTLS` call by call: an observer of the chunk pool's runs notes which objects a call put into its
    client's hands and which it retired. */
module ChunkCalls {
  import opened ChunkPool

  datatype Request = NoCall | Allocation | Release(x: Item)

  /** An object, by its chunk and ticket. */
  datatype Item = Item(c: ChunkId, k: Ticket)

  /** The latest call of a thread, the objects its steps put into clients' hands, and those its steps retired. */
  datatype Record = Record(call: Request, handed: set<Item>, retired: set<Item>)

  ghost predicate Live(chunks: Chunks, x: Item) { x.c in chunks && x.k in chunks[x.c].live }

  ghost predicate InHands(chunks: Chunks, x: Item) { Live(chunks, x) && chunks[x.c].live[x.k].status == Out }

  /** Set by set: who came into clients' hands, and who is no longer live. */
  ghost predicate Handed(before: Chunks, after: Chunks, items: set<Item>) {
    forall x :: x in items <==> InHands(after, x) && !InHands(before, x)
  }

  ghost predicate Retires(before: Chunks, after: Chunks, items: set<Item>) {
    forall x :: x in items <==> Live(before, x) && !Live(after, x)
  }

  datatype Observed = Observed(s: System, records: map<nat, Record>)

  /** Thread `t` steps; an idle one calls. Its record gains what the step did. */
  ghost predicate Acts(o: Observed, t: nat, free: bool, c: ChunkId, k: Ticket, o': Observed)
    requires t in o.s.pcs
  {
    && Step(o.s, t, free, c, k, o'.s) && t in o.records && t in o'.records
    && o'.records == o.records[t := o'.records[t]]
    && var r, r' := o.records[t], o'.records[t];
       var idle := o.s.pcs[t].Idle?;
       && r'.call == (if !idle then r.call else if free then Release(Item(c, k)) else Allocation)
       && (!idle ==> r.handed <= r'.handed && r.retired <= r'.retired)
       && Handed(o.s.chunks, o'.s.chunks, if idle then r'.handed else r'.handed - r.handed)
       && Retires(o.s.chunks, o'.s.chunks, if idle then r'.retired else r'.retired - r.retired)
  }

  ghost predicate NextObserved(o: Observed, o': Observed) {
    exists t, free, c, k :: t in o.s.pcs && Acts(o, t, free, c, k, o')
  }

  ghost predicate ObservedRun(tr: seq<Observed>) {
    && tr != [] && Init(tr[0].s) && tr[0].records.Keys == tr[0].s.pcs.Keys
    && (forall t :: t in tr[0].records ==> tr[0].records[t] == Record(NoCall, {}, {}))
    && (forall i :: 0 <= i < |tr| - 1 ==> NextObserved(tr[i], tr[i + 1]))
  }

  /** An `Alloc` that has returned put one object into its client's hands and retired none; a `Free` retired its
      argument only. */
  ghost predicate Fulfilled(r: Record) {
    match r.call
    case NoCall => r.handed == {} && r.retired == {}
    case Allocation => (exists x :: r.handed == {x}) && r.retired == {}
    case Release(x) => r.handed == {} && r.retired == {x}
  }

  ghost predicate OnRecord(pc: Pc, r: Record) {
    match pc
    case Idle => Fulfilled(r)
    case Increment(c, k) => r == Record(Release(Item(c, k)), {}, {})
    case Return(_) => r.call.Release? && r == Record(r.call, {}, {r.call.x})
    case _ => r == Record(Allocation, {}, {})
  }

  /** The object that the step puts into a client's hands, or retires. */
  ghost function HandedBy(s: System, t: nat, k: Ticket): set<Item>
    requires t in s.pcs
  {
    var pc := s.pcs[t];
    if pc.Take? && t in s.tls && s.tls[t] in s.chunks && !LastSlot(s.chunks[s.tls[t]]) then {Item(s.tls[t], k)}
    else if pc.RefillSet? && t in s.tls then {Item(s.tls[t], pc.k)} else {}
  }

  ghost function RetiredBy(pc: Pc): set<Item> { if pc.Increment? then {Item(pc.c, pc.k)} else {} }

  ghost predicate GoesOut(live: map<Ticket, Object>, live': map<Ticket, Object>, k: Ticket) {
    k in live' && live'[k].status == Out && !(k in live && live[k].status == Out)
  }

  lemma OneChunkItems(before: Chunks, c: ChunkId, y: Chunk, handed: set<Item>, retired: set<Item>)
    requires var live := if c in before then before[c].live else map[];
      && (forall x :: x in handed <==> x.c == c && GoesOut(live, y.live, x.k))
      && (forall x :: x in retired <==> x.c == c && x.k in live && x.k !in y.live)
    ensures Handed(before, before[c := y], handed) && Retires(before, before[c := y], retired)
  {}

  /** Resetting the counters of a chunk touches no object. */
  lemma ResetItems(before: Chunks, d: ChunkId, t: nat, after: Chunks, handed: set<Item>, retired: set<Item>)
    requires d in before && Handed(before[d := Reset(before[d], t)], after, handed)
    requires Retires(before[d := Reset(before[d], t)], after, retired)
    ensures Handed(before, after, handed) && Retires(before, after, retired)
  {
    var mid := before[d := Reset(before[d], t)];
    assert forall x :: Live(mid, x) <==> Live(before, x);
    assert forall x :: InHands(mid, x) <==> InHands(before, x);
  }

  lemma SwitchItems(s: System, t: nat, j: Ticket, d: ChunkId, s': System)
    requires t in s.pcs && ThreadOk(s.chunks, s.tls, t, s.pcs[t]) && s.pcs[t] == RefillSet(j, d)
    requires t in s.tls && Step(s, t, false, d, j, s')
    ensures Handed(s.chunks, s'.chunks, {Item(s.tls[t], j)}) && Retires(s.chunks, s'.chunks, {})
  {
    var c := s.tls[t];
    var mid := s.chunks[d := Reset(s.chunks[d], t)];
    assert c != d && mid[c] == s.chunks[c];
    OneChunkItems(mid, c, Leave(s.chunks[c], j), {Item(c, j)}, {});
    ResetItems(s.chunks, d, t, mid[c := Leave(s.chunks[c], j)], {Item(c, j)}, {});
  }

  lemma StepItems(s: System, t: nat, free: bool, c: ChunkId, k: Ticket, s': System)
    requires t in s.pcs && ThreadOk(s.chunks, s.tls, t, s.pcs[t]) && Step(s, t, free, c, k, s')
    ensures Handed(s.chunks, s'.chunks, HandedBy(s, t, k)) && Retires(s.chunks, s'.chunks, RetiredBy(s.pcs[t]))
  {
    var pc := s.pcs[t];
    match pc
    case Idle => if free { OneChunkItems(s.chunks, c, s'.chunks[c], {}, {}); }
    case First => OneChunkItems(s.chunks, c, s'.chunks[c], {}, {});
    case FirstSet(d) => OneChunkItems(s.chunks, d, s'.chunks[d], {}, {});
    case Take => OneChunkItems(s.chunks, s.tls[t], s'.chunks[s.tls[t]], HandedBy(s, t, k), {});
    case Refill(_) => OneChunkItems(s.chunks, c, s'.chunks[c], {}, {});
    case RefillSet(j, d) => SwitchItems(s, t, j, d, s');
    case Increment(d, j) => OneChunkItems(s.chunks, d, s'.chunks[d], {}, {Item(d, j)});
    case Return(d) => OneChunkItems(s.chunks, d, s'.chunks[d], {}, {});
  }

  ghost predicate Recorded(o: Observed) {
    && Inv(o.s) && o.records.Keys == o.s.pcs.Keys
    && forall t :: t in o.s.pcs ==> OnRecord(o.s.pcs[t], o.records[t])
  }

  lemma SameItems(before: Chunks, after: Chunks, a: set<Item>, b: set<Item>)
    ensures Handed(before, after, a) && Handed(before, after, b) ==> a == b
    ensures Retires(before, after, a) && Retires(before, after, b) ==> a == b
  {}

  lemma StaysOnRecord(s: System, t: nat, free: bool, c: ChunkId, k: Ticket, s': System, r: Record, r': Record)
    requires t in s.pcs && Step(s, t, free, c, k, s') && OnRecord(s.pcs[t], r) && ThreadOk(s.chunks, s.tls, t, s.pcs[t])
    requires var pc := s.pcs[t];
      r' == if pc.Idle? then Record(if free then Release(Item(c, k)) else Allocation, {}, {})
            else Record(r.call, r.handed + HandedBy(s, t, k), r.retired + RetiredBy(pc))
    ensures t in s'.pcs && s'.pcs == s.pcs[t := s'.pcs[t]] && OnRecord(s'.pcs[t], r')
  {
    assert forall x: Item :: {} + {x} == {x};
  }

  lemma NotedIs(o: Observed, t: nat, free: bool, c: ChunkId, k: Ticket, o': Observed)
    requires t in o.s.pcs && Acts(o, t, free, c, k, o') && Handed(o.s.chunks, o'.s.chunks, HandedBy(o.s, t, k))
    requires Retires(o.s.chunks, o'.s.chunks, RetiredBy(o.s.pcs[t]))
    ensures var pc, r := o.s.pcs[t], o.records[t];
      o'.records[t] == if pc.Idle? then Record(if free then Release(Item(c, k)) else Allocation, {}, {})
                       else Record(r.call, r.handed + HandedBy(o.s, t, k), r.retired + RetiredBy(pc))
  {
    var pc, r, r' := o.s.pcs[t], o.records[t], o'.records[t];
    var handed, retired := if pc.Idle? then r'.handed else r'.handed - r.handed,
                           if pc.Idle? then r'.retired else r'.retired - r.retired;
    SameItems(o.s.chunks, o'.s.chunks, handed, HandedBy(o.s, t, k));
    SameItems(o.s.chunks, o'.s.chunks, retired, RetiredBy(pc));
  }

  lemma NextRecorded(o: Observed, o': Observed)
    requires Recorded(o) && NextObserved(o, o')
    ensures Recorded(o')
  {
    var t, free, c, k :| t in o.s.pcs && Acts(o, t, free, c, k, o');
    assert ThreadOk(o.s.chunks, o.s.tls, t, o.s.pcs[t]);
    StepItems(o.s, t, free, c, k, o'.s);
    NotedIs(o, t, free, c, k, o');
    StaysOnRecord(o.s, t, free, c, k, o'.s, o.records[t], o'.records[t]);
    NextInv(o.s, o'.s, t, free, c, k);
    Assembled(o, t, o');
  }

  lemma NextInv(s: System, s': System, t: nat, free: bool, c: ChunkId, k: Ticket)
    requires Inv(s) && t in s.pcs && Step(s, t, free, c, k, s')
    ensures Inv(s')
  {
    assert Next(s, s');
    StepInv(s, s');
  }

  lemma Assembled(o: Observed, t: nat, o': Observed)
    requires Recorded(o) && t in o.s.pcs && t in o'.s.pcs && o'.s.pcs == o.s.pcs[t := o'.s.pcs[t]] && Inv(o'.s)
    requires t in o'.records && o'.records == o.records[t := o'.records[t]] && OnRecord(o'.s.pcs[t], o'.records[t])
    ensures Recorded(o')
  {}

  lemma {:induction false} RunRecorded(tr: seq<Observed>, n: nat)
    requires ObservedRun(tr) && n < |tr|
    ensures Recorded(tr[n])
  {
    if n > 0 {
      RunRecorded(tr, n - 1);
      assert NextObserved(tr[n - 1], tr[n - 1 + 1]);
      NextRecorded(tr[n - 1], tr[n]);
    }
  }

  /** Whenever a thread is idle, its latest call is fulfilled: an `Alloc` has put exactly one object into its client's
      hands, a `Free` has retired exactly its argument. */
  lemma CallsAreFulfilled(tr: seq<Observed>, n: nat, t: nat)
    requires ObservedRun(tr) && n < |tr| && t in tr[n].s.pcs && tr[n].s.pcs[t].Idle?
    ensures t in tr[n].records && Fulfilled(tr[n].records[t])
  {
    RunRecorded(tr, n);
  }
}
