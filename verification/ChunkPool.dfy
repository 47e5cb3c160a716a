/** `LFObjectPoolTLS`: every thread takes objects from a chunk of its own; any thread may free any object, and
    the free that completes a chunk returns it to the shared chunk pool.

    A step is one shared access of one thread. The chunk pool is used through what `ObjectPool.HandsOutUnowned` states:
    it hands out a chunk that nobody owns, or a new one. */
module ChunkPool {
  import opened Tally

  const CHUNK_SIZE: nat := 500

  type ChunkId = nat
  type Ticket = nat

  /** Where a chunk is: in the pool, in the hands of one call, the chunk its owner allocates from, or used up
      and left by its owner. */
  datatype Place = Pooled | Held(t: nat) | Current(t: nat) | Retired

  /** Whether a live object's allocation has not returned yet, it is in use, or its free has begun. */
  datatype Status = Pending(t: nat) | Out | Freeing(t: nat)

  datatype Object = Object(slot: nat, status: Status)

  /** `alloc_index_` and `free_index_`; `place` and the live objects, by the ticket of their allocation, are
      history. */
  datatype Chunk = Chunk(alloc: nat, free: nat, place: Place, live: map<Ticket, Object>)

  datatype Pc =
    | Idle
    | First
    | FirstSet(c: ChunkId)
    | Take
    | Refill(k: Ticket)
    | RefillSet(k: Ticket, c: ChunkId)
    | Increment(c: ChunkId, k: Ticket)
    | Return(c: ChunkId)
  {
    predicate Refills() { Refill? || RefillSet? }

    predicate Holds() { FirstSet? || RefillSet? || Return? }
  }

  type Chunks = map<ChunkId, Chunk>

  datatype System = System(chunks: Chunks, tls: map<nat, ChunkId>, pcs: map<nat, Pc>) {
    ghost function Go(t: nat, pc: Pc): System { this.(pcs := pcs[t := pc]) }

    ghost function Put(c: ChunkId, x: Chunk): System { this.(chunks := chunks[c := x]) }
  }

  ghost predicate Init(s: System) {
    && (forall c :: c in s.chunks ==> s.chunks[c] == Chunk(0, 0, Pooled, map[]))
    && s.tls == map[]
    && forall t :: t in s.pcs ==> s.pcs[t] == Idle
  }

  /** The pool may hand out chunk `c`. */
  ghost predicate Available(s: System, c: ChunkId) { c in s.chunks ==> s.chunks[c].place == Pooled }

  ghost function Fetch(s: System, t: nat, c: ChunkId): Chunk {
    if c in s.chunks then s.chunks[c].(place := Held(t)) else Chunk(0, 0, Held(t), map[])
  }

  /** `Chunk::Set`, and the chunk becomes the thread's. It resets the counters and nothing else. */
  ghost function Reset(x: Chunk, t: nat): Chunk { x.(alloc := 0, free := 0, place := Current(t)) }

  predicate LastSlot(x: Chunk) { x.alloc + 1 == CHUNK_SIZE }

  /** `Chunk::Alloc`: the last slot is not returned before the thread has switched to another chunk. */
  ghost function Alloc(x: Chunk, t: nat, k: Ticket): Chunk {
    x.(alloc := x.alloc + 1, live := x.live[k := Object(x.alloc, if LastSlot(x) then Pending(t) else Out)])
  }

  predicate LastFree(x: Chunk) { x.free + 1 == CHUNK_SIZE }

  /** `Chunk::Free`: whoever counts to 500 owns the chunk. */
  ghost function Free(x: Chunk, t: nat, k: Ticket): Chunk {
    x.(free := x.free + 1, live := x.live - {k}, place := if LastFree(x) then Held(t) else x.place)
  }

  ghost function Mark(x: Chunk, k: Ticket, status: Status): Chunk
    requires k in x.live
  {
    x.(live := x.live[k := x.live[k].(status := status)])
  }

  /** The owner leaves a used-up chunk and returns the object of its last slot. */
  ghost function Leave(x: Chunk, k: Ticket): Chunk
    requires k in x.live
  {
    Mark(x, k, Out).(place := Retired)
  }

  /** One step of thread `t`. An idle thread calls `Free`, if `free`, or `Alloc`. `k` is the ticket of a new object or
      of the object to free (an object is freed by one call, after its allocation returned), `c` its chunk or the
      chunk that the pool hands out. */
  ghost predicate Step(s: System, t: nat, free: bool, c: ChunkId, k: Ticket, s': System)
    requires t in s.pcs
  {
    match s.pcs[t]
    case Idle =>
      if free then
        && c in s.chunks && k in s.chunks[c].live && s.chunks[c].live[k].status == Out
        && s' == s.Go(t, Increment(c, k)).Put(c, Mark(s.chunks[c], k, Freeing(t)))
      else s' == s.Go(t, if t in s.tls then Take else First)
    case First => Available(s, c) && s' == s.Go(t, FirstSet(c)).Put(c, Fetch(s, t, c))
    case FirstSet(d) =>
      d in s.chunks && s' == s.Go(t, Take).Put(d, Reset(s.chunks[d], t)).(tls := s.tls[t := d])
    case Take =>
      && t in s.tls && s.tls[t] in s.chunks && k !in s.chunks[s.tls[t]].live
      && s' == s.Go(t, if LastSlot(s.chunks[s.tls[t]]) then Refill(k) else Idle)
                .Put(s.tls[t], Alloc(s.chunks[s.tls[t]], t, k))
    case Refill(j) => Available(s, c) && s' == s.Go(t, RefillSet(j, c)).Put(c, Fetch(s, t, c))
    case RefillSet(j, d) =>
      && d in s.chunks && t in s.tls && s.tls[t] in s.chunks && j in s.chunks[s.tls[t]].live
      && s' == s.Go(t, Idle).Put(d, Reset(s.chunks[d], t)).Put(s.tls[t], Leave(s.chunks[s.tls[t]], j))
                .(tls := s.tls[t := d])
    case Increment(d, j) =>
      && d in s.chunks && j in s.chunks[d].live
      && s' == s.Go(t, if LastFree(s.chunks[d]) then Return(d) else Idle).Put(d, Free(s.chunks[d], t, j))
    case Return(d) => d in s.chunks && s' == s.Go(t, Idle).Put(d, s.chunks[d].(place := Pooled))
  }

  ghost predicate Next(s: System, s': System) {
    exists t, free, c, k :: t in s.pcs && Step(s, t, free, c, k, s')
  }

  ghost predicate Run(tr: seq<System>) {
    && tr != [] && Init(tr[0])
    && (forall i :: 0 <= i < |tr| - 1 ==> Next(tr[i], tr[i + 1]))
  }

  // ----- the invariant -----

  /** Live plus freed is handed out, and the live objects have slots of their own. */
  ghost predicate ChunkOk(x: Chunk) {
    && |x.live| + x.free == x.alloc <= CHUNK_SIZE
    && (forall k :: k in x.live ==> x.live[k].slot < x.alloc)
    && (forall j, k :: j in x.live && k in x.live && j != k ==> x.live[j].slot != x.live[k].slot)
    && (x.place.Pooled? || x.place.Held? ==> x.live == map[])
    && (x.place.Retired? ==> x.alloc == CHUNK_SIZE)
  }

  /** A current chunk is its owner's, and if it is used up the owner is on its way to another one. */
  ghost predicate OwnerOk(s: System, c: ChunkId, x: Chunk) {
    x.place.Current? ==>
      var t := x.place.t;
      && t in s.pcs && t in s.tls && s.tls[t] == c
      && (x.alloc == CHUNK_SIZE ==> s.pcs[t].Refills())
  }

  ghost predicate Waiting(x: Chunk, t: nat, k: Ticket) {
    x.place == Current(t) && k in x.live && x.live[k].status == Pending(t)
  }

  ghost predicate Leaving(x: Chunk, t: nat, k: Ticket) {
    k in x.live && x.live[k].status == Freeing(t)
  }

  ghost predicate ThreadOk(chunks: Chunks, tls: map<nat, ChunkId>, t: nat, pc: Pc) {
    && (t in tls ==> tls[t] in chunks && chunks[tls[t]].place == Current(t))
    && (pc.Take? ==> t in tls && chunks[tls[t]].alloc < CHUNK_SIZE)
    && (pc.First? || pc.FirstSet? ==> t !in tls)
    && (pc.Refills() ==> t in tls && chunks[tls[t]].alloc == CHUNK_SIZE && Waiting(chunks[tls[t]], t, pc.k))
    && (pc.Increment? ==> pc.c in chunks && Leaving(chunks[pc.c], t, pc.k))
    && (pc.Holds() ==> pc.c in chunks && chunks[pc.c].place == Held(t))
    && (pc.Return? ==> chunks[pc.c].alloc == chunks[pc.c].free == CHUNK_SIZE)
  }

  ghost predicate Inv(s: System) {
    && (forall c :: c in s.chunks ==> ChunkOk(s.chunks[c]))
    && (forall c :: c in s.chunks ==> OwnerOk(s, c, s.chunks[c]))
    && (forall t :: t in s.pcs ==> ThreadOk(s.chunks, s.tls, t, s.pcs[t]))
    && s.tls.Keys <= s.pcs.Keys
  }

  /** What thread `u` relies on survives another thread's change of a chunk from `x` to `y`. */
  ghost predicate Keeps(x: Chunk, y: Chunk, u: nat) {
    && (x.place == Current(u) ==> y.place == Current(u) && y.alloc == x.alloc)
    && (x.place == Held(u) ==> y == x)
    && (forall k :: Leaving(x, u, k) ==> Leaving(y, u, k))
    && (forall k :: Waiting(x, u, k) ==> Waiting(y, u, k))
  }

  lemma OtherThread(chunks: Chunks, tls: map<nat, ChunkId>, u: nat, pc: Pc, c: ChunkId, y: Chunk,
                    tls': map<nat, ChunkId>)
    requires ThreadOk(chunks, tls, u, pc) && (c in chunks ==> Keeps(chunks[c], y, u))
    requires u in tls' <==> u in tls
    requires u in tls ==> tls'[u] == tls[u]
    ensures ThreadOk(chunks[c := y], tls', u, pc)
  {}

  lemma AllocOk(x: Chunk, t: nat, k: Ticket)
    requires ChunkOk(x) && x.place == Current(t) && x.alloc < CHUNK_SIZE && k !in x.live
    ensures ChunkOk(Alloc(x, t, k))
  {
    MapSizes(x.live, k, Object(x.alloc, if LastSlot(x) then Pending(t) else Out));
  }

  lemma AllocKeeps(x: Chunk, t: nat, k: Ticket, u: nat)
    requires x.place == Current(t) && k !in x.live && u != t
    ensures Keeps(x, Alloc(x, t, k), u)
  {}

  lemma MarkOk(x: Chunk, k: Ticket, status: Status)
    requires ChunkOk(x) && k in x.live
    ensures ChunkOk(Mark(x, k, status))
  {
    MapSizes(x.live, k, x.live[k].(status := status));
  }

  lemma FreeOk(x: Chunk, t: nat, k: Ticket)
    requires ChunkOk(x) && k in x.live
    ensures ChunkOk(Free(x, t, k))
  {
    MapSizes(x.live, k, x.live[k]);
  }

  lemma ResetOk(x: Chunk, t: nat)
    requires ChunkOk(x) && x.place.Held?
    ensures ChunkOk(Reset(x, t)) && Reset(x, t) == Chunk(0, 0, Current(t), map[])
  {}

  /** The free that counts to 500 is of the last live object of a full chunk, and its owner has left it: the
      owner would still be holding back the object of the last slot. */
  lemma LastFreeOfRetired(s: System, t: nat, d: ChunkId, j: Ticket)
    requires Inv(s) && t in s.pcs && s.pcs[t] == Increment(d, j) && d in s.chunks && LastFree(s.chunks[d])
    ensures s.chunks[d].place == Retired && s.chunks[d].alloc == CHUNK_SIZE && s.chunks[d].live.Keys == {j}
  {
    var x := s.chunks[d];
    assert ThreadOk(s.chunks, s.tls, t, s.pcs[t]) && ChunkOk(x) && OwnerOk(s, d, x);
    MapSizes(x.live, j, x.live[j]);
    assert (x.live - {j}).Keys == x.live.Keys - {j};
    assert x.live - {j} == map[];
  }

  // ----- every step keeps it -----

  /** A step that changes one chunk. */
  lemma OneChunk(s: System, t: nat, pc: Pc, c: ChunkId, y: Chunk, s': System)
    requires Inv(s) && t in s.pcs && s' == s.Go(t, pc).Put(c, y).(tls := s'.tls)
    requires ChunkOk(y) && OwnerOk(s', c, y) && ThreadOk(s'.chunks, s'.tls, t, pc)
    requires forall u :: u != t ==> (u in s'.tls <==> u in s.tls) && (u in s.tls ==> s'.tls[u] == s.tls[u])
    requires t in s.tls ==> t in s'.tls && s'.tls[t] == s.tls[t]
    requires s.pcs[t].Refills() && t in s.tls && s.tls[t] != c ==> pc.Refills()
    requires forall u :: u in s.pcs && u != t && c in s.chunks ==> Keeps(s.chunks[c], y, u)
    ensures Inv(s')
  {
    forall u | u in s'.pcs ensures ThreadOk(s'.chunks, s'.tls, u, s'.pcs[u]) {
      if u != t {
        OtherThread(s.chunks, s.tls, u, s.pcs[u], c, y, s'.tls);
      }
    }
    forall d | d in s'.chunks ensures ChunkOk(s'.chunks[d]) && OwnerOk(s', d, s'.chunks[d]) {
      if d != c {
        OtherOwner(s, t, pc, c, s', d);
      }
    }
  }

  lemma OtherOwner(s: System, t: nat, pc: Pc, c: ChunkId, s': System, d: ChunkId)
    requires t in s.pcs && s'.pcs == s.pcs[t := pc] && d in s.chunks && d != c && OwnerOk(s, d, s.chunks[d])
    requires forall u :: u in s.tls ==> u in s'.tls && s'.tls[u] == s.tls[u]
    requires s.pcs[t].Refills() && t in s.tls && s.tls[t] != c ==> pc.Refills()
    ensures OwnerOk(s', d, s.chunks[d])
  {}

  lemma CallInv(s: System, t: nat, s': System)
    requires Inv(s) && t in s.pcs && s.pcs[t].Idle? && s' == s.Go(t, if t in s.tls then Take else First)
    ensures Inv(s')
  {
    assert ThreadOk(s.chunks, s.tls, t, s.pcs[t]);
    if t in s.tls {
      assert OwnerOk(s, s.tls[t], s.chunks[s.tls[t]]) && ChunkOk(s.chunks[s.tls[t]]);
    }
    forall u | u in s'.pcs ensures ThreadOk(s'.chunks, s'.tls, u, s'.pcs[u]) {
      assert ThreadOk(s.chunks, s.tls, u, s.pcs[u]);
    }
    forall c | c in s'.chunks ensures OwnerOk(s', c, s'.chunks[c]) {
      assert OwnerOk(s, c, s.chunks[c]);
    }
  }

  lemma FetchInv(s: System, t: nat, c: ChunkId, pc: Pc, s': System)
    requires Inv(s) && t in s.pcs && Available(s, c) && s' == s.Go(t, pc).Put(c, Fetch(s, t, c))
    requires (s.pcs[t].First? && pc == FirstSet(c)) || (s.pcs[t].Refill? && pc == RefillSet(s.pcs[t].k, c))
    ensures Inv(s')
  {
    assert ThreadOk(s.chunks, s.tls, t, s.pcs[t]);
    assert c in s.chunks ==> ChunkOk(s.chunks[c]);
    OneChunk(s, t, pc, c, Fetch(s, t, c), s');
  }

  lemma FirstSetInv(s: System, t: nat, d: ChunkId, s': System)
    requires Inv(s) && t in s.pcs && s.pcs[t] == FirstSet(d) && d in s.chunks
    requires s' == s.Go(t, Take).Put(d, Reset(s.chunks[d], t)).(tls := s.tls[t := d])
    ensures Inv(s')
  {
    assert ThreadOk(s.chunks, s.tls, t, s.pcs[t]) && ChunkOk(s.chunks[d]);
    ResetOk(s.chunks[d], t);
    OneChunk(s, t, Take, d, Reset(s.chunks[d], t), s');
  }

  lemma TakeInv(s: System, t: nat, k: Ticket, s': System)
    requires Inv(s) && t in s.pcs && s.pcs[t] == Take && t in s.tls && s.tls[t] in s.chunks
    requires k !in s.chunks[s.tls[t]].live
    requires var x := s.chunks[s.tls[t]];
      s' == s.Go(t, if LastSlot(x) then Refill(k) else Idle).Put(s.tls[t], Alloc(x, t, k))
    ensures Inv(s')
  {
    var c := s.tls[t];
    var x := s.chunks[c];
    assert ThreadOk(s.chunks, s.tls, t, s.pcs[t]) && ChunkOk(x);
    AllocOk(x, t, k);
    forall u | u in s.pcs && u != t ensures Keeps(x, Alloc(x, t, k), u) {
      AllocKeeps(x, t, k, u);
    }
    OneChunk(s, t, if LastSlot(x) then Refill(k) else Idle, c, Alloc(x, t, k), s');
  }

  lemma FreeInv(s: System, t: nat, d: ChunkId, j: Ticket, s': System)
    requires Inv(s) && t in s.pcs && s.pcs[t] == Increment(d, j) && d in s.chunks && j in s.chunks[d].live
    requires var x := s.chunks[d]; s' == s.Go(t, if LastFree(x) then Return(d) else Idle).Put(d, Free(x, t, j))
    ensures Inv(s')
  {
    var x := s.chunks[d];
    var y := Free(x, t, j);
    var pc := if LastFree(x) then Return(d) else Idle;
    assert ThreadOk(s.chunks, s.tls, t, s.pcs[t]) && ChunkOk(x) && OwnerOk(s, d, x);
    if LastFree(x) {
      LastFreeOfRetired(s, t, d, j);
    }
    FreeOk(x, t, j);
    forall u | u in s.pcs && u != t ensures Keeps(x, y, u) {
      FreeKeeps(x, t, j, u);
    }
    FreeThread(s.chunks, s.tls, t, d, j);
    OneChunk(s, t, pc, d, y, s');
  }

  lemma FreeThread(chunks: Chunks, tls: map<nat, ChunkId>, t: nat, d: ChunkId, j: Ticket)
    requires ThreadOk(chunks, tls, t, Increment(d, j))
    requires (LastFree(chunks[d]) ==> chunks[d].place == Retired && chunks[d].alloc == CHUNK_SIZE)
    ensures ThreadOk(chunks[d := Free(chunks[d], t, j)], tls, t, if LastFree(chunks[d]) then Return(d) else Idle)
  {}

  lemma FreeKeeps(x: Chunk, t: nat, j: Ticket, u: nat)
    requires u != t && Leaving(x, t, j) && (x.place.Held? ==> x.live == map[]) && (LastFree(x) ==> x.place == Retired)
    ensures Keeps(x, Free(x, t, j), u)
  {}

  lemma MarkKeeps(x: Chunk, t: nat, j: Ticket, u: nat)
    requires u != t && j in x.live && x.live[j].status == Out && (x.place.Held? ==> x.live == map[])
    ensures Keeps(x, Mark(x, j, Freeing(t)), u)
  {}

  lemma FreeCallInv(s: System, t: nat, c: ChunkId, k: Ticket, s': System)
    requires Inv(s) && t in s.pcs && s.pcs[t].Idle? && c in s.chunks && k in s.chunks[c].live
    requires s.chunks[c].live[k].status == Out
    requires s' == s.Go(t, Increment(c, k)).Put(c, Mark(s.chunks[c], k, Freeing(t)))
    ensures Inv(s')
  {
    var x := s.chunks[c];
    assert ThreadOk(s.chunks, s.tls, t, s.pcs[t]) && ChunkOk(x) && OwnerOk(s, c, x);
    MarkOk(x, k, Freeing(t));
    forall u | u in s.pcs && u != t ensures Keeps(x, Mark(x, k, Freeing(t)), u) {
      MarkKeeps(x, t, k, u);
    }
    OneChunk(s, t, Increment(c, k), c, Mark(x, k, Freeing(t)), s');
  }

  lemma ReturnInv(s: System, t: nat, d: ChunkId, s': System)
    requires Inv(s) && t in s.pcs && s.pcs[t] == Return(d) && d in s.chunks
    requires s' == s.Go(t, Idle).Put(d, s.chunks[d].(place := Pooled))
    ensures Inv(s')
  {
    assert ThreadOk(s.chunks, s.tls, t, s.pcs[t]) && ChunkOk(s.chunks[d]);
    OneChunk(s, t, Idle, d, s.chunks[d].(place := Pooled), s');
  }

  lemma LeaveKeeps(x: Chunk, t: nat, j: Ticket, u: nat)
    requires u != t && Waiting(x, t, j)
    ensures Keeps(x, Leave(x, j), u)
  {}

  lemma SwitchThreads(s: System, t: nat, j: Ticket, d: ChunkId, c: ChunkId, u: nat)
    requires ThreadOk(s.chunks, s.tls, t, RefillSet(j, d)) && t in s.tls && s.tls[t] == c && d in s.chunks
    requires u in s.pcs && u != t && ThreadOk(s.chunks, s.tls, u, s.pcs[u]) && ChunkOk(s.chunks[d])
    ensures ThreadOk(s.chunks[d := Reset(s.chunks[d], t)][c := Leave(s.chunks[c], j)], s.tls[t := d], u, s.pcs[u])
  {
    var y := Reset(s.chunks[d], t);
    OtherThread(s.chunks, s.tls, u, s.pcs[u], d, y, s.tls);
    LeaveKeeps(s.chunks[c], t, j, u);
    OtherThread(s.chunks[d := y], s.tls, u, s.pcs[u], c, Leave(s.chunks[c], j), s.tls[t := d]);
  }

  lemma SwitchChunk(s: System, t: nat, s': System, e: ChunkId)
    requires t in s.pcs && t in s.tls && t in s'.tls && s'.pcs == s.pcs[t := Idle] && s'.tls == s.tls[t := s'.tls[t]]
    requires e in s.chunks && e != s.tls[t] && OwnerOk(s, e, s.chunks[e])
    ensures OwnerOk(s', e, s.chunks[e])
  {}

  lemma SwitchInv(s: System, t: nat, j: Ticket, d: ChunkId, s': System)
    requires Inv(s) && t in s.pcs && s.pcs[t] == RefillSet(j, d) && d in s.chunks && t in s.tls
    requires s.tls[t] in s.chunks && j in s.chunks[s.tls[t]].live
    requires s' == s.Go(t, Idle).Put(d, Reset(s.chunks[d], t)).Put(s.tls[t], Leave(s.chunks[s.tls[t]], j))
                    .(tls := s.tls[t := d])
    ensures Inv(s')
  {
    var c := s.tls[t];
    assert ThreadOk(s.chunks, s.tls, t, s.pcs[t]) && ChunkOk(s.chunks[c]) && ChunkOk(s.chunks[d]);
    MarkOk(s.chunks[c], j, Out);
    ResetOk(s.chunks[d], t);
    forall u | u in s'.pcs ensures ThreadOk(s'.chunks, s'.tls, u, s'.pcs[u]) {
      if u != t {
        SwitchThreads(s, t, j, d, c, u);
      }
    }
    forall e | e in s'.chunks ensures ChunkOk(s'.chunks[e]) && OwnerOk(s', e, s'.chunks[e]) {
      if e != c && e != d {
        SwitchChunk(s, t, s', e);
      }
    }
  }

  lemma StepInv(s: System, s': System)
    requires Inv(s) && Next(s, s')
    ensures Inv(s')
  {
    var t, free, c, k :| t in s.pcs && Step(s, t, free, c, k, s');
    match s.pcs[t]
    case Idle =>
      if free {
        FreeCallInv(s, t, c, k, s');
      } else {
        CallInv(s, t, s');
      }
    case First => FetchInv(s, t, c, FirstSet(c), s');
    case FirstSet(d) => FirstSetInv(s, t, d, s');
    case Take => TakeInv(s, t, k, s');
    case Refill(j) => FetchInv(s, t, c, RefillSet(j, c), s');
    case RefillSet(j, d) => SwitchInv(s, t, j, d, s');
    case Increment(d, j) => FreeInv(s, t, d, j, s');
    case Return(d) => ReturnInv(s, t, d, s');
  }

  lemma {:induction false} RunInv(tr: seq<System>, n: nat)
    requires Run(tr) && n < |tr|
    ensures Inv(tr[n])
  {
    if n > 0 {
      RunInv(tr, n - 1);
      assert Next(tr[n - 1], tr[n - 1 + 1]);
      StepInv(tr[n - 1], tr[n]);
    }
  }

  // ----- results -----

  /** No two live objects share a slot, whichever threads allocated and free them, and every slot is inside
      its chunk. */
  lemma OneObjectPerSlot(tr: seq<System>, n: nat, c: ChunkId, j: Ticket, k: Ticket)
    requires Run(tr) && n < |tr| && c in tr[n].chunks && j in tr[n].chunks[c].live && k in tr[n].chunks[c].live
    ensures tr[n].chunks[c].live[j].slot < CHUNK_SIZE
    ensures tr[n].chunks[c].live[j].slot == tr[n].chunks[c].live[k].slot ==> j == k
  {
    RunInv(tr, n);
    assert ChunkOk(tr[n].chunks[c]);
  }

  /** `Alloc` always finds a slot in range, and it hands out one that no live object has. */
  lemma SlotIsVacant(tr: seq<System>, n: nat, t: nat)
    requires Run(tr) && n < |tr| && t in tr[n].pcs && tr[n].pcs[t] == Take
    ensures t in tr[n].tls && tr[n].tls[t] in tr[n].chunks
    ensures var x := tr[n].chunks[tr[n].tls[t]];
      x.alloc < CHUNK_SIZE && forall k :: k in x.live ==> x.live[k].slot != x.alloc
  {
    RunInv(tr, n);
    var s := tr[n];
    assert ThreadOk(s.chunks, s.tls, t, s.pcs[t]) && ChunkOk(s.chunks[s.tls[t]]);
  }

  lemma OnlyReturn(s: System, s': System, c: ChunkId) returns (t: nat)
    requires Next(s, s') && c in s.chunks && s.chunks[c].place != Pooled && c in s'.chunks
    requires s'.chunks[c].place == Pooled
    ensures t in s.pcs && s.pcs[t] == Return(c)
  {
    var u, free, d, k :| u in s.pcs && Step(s, u, free, d, k, s');
    t := u;
  }

  /** A chunk goes back to the pool only when all its slots were handed out and freed; no live object is in it
      and no thread allocates from it any more. */
  lemma ReturnedWhenComplete(tr: seq<System>, n: nat, c: ChunkId)
    requires Run(tr) && n + 1 < |tr| && c in tr[n].chunks && tr[n].chunks[c].place != Pooled
    requires c in tr[n + 1].chunks && tr[n + 1].chunks[c].place == Pooled
    ensures tr[n].chunks[c].alloc == tr[n].chunks[c].free == CHUNK_SIZE && tr[n].chunks[c].live == map[]
    ensures forall t :: t in tr[n].tls ==> tr[n].tls[t] != c
  {
    RunInv(tr, n);
    var s := tr[n];
    var t := OnlyReturn(s, tr[n + 1], c);
    assert ChunkOk(s.chunks[c]) && ThreadOk(s.chunks, s.tls, t, s.pcs[t]);
    forall u | u in s.tls ensures s.tls[u] != c {
      assert ThreadOk(s.chunks, s.tls, u, s.pcs[u]);
    }
  }

  /** `Set` resets a chunk only when no object in it is live and no other call or thread has it. */
  lemma ResetOnlyEmpty(tr: seq<System>, n: nat, t: nat)
    requires Run(tr) && n < |tr| && t in tr[n].pcs && (tr[n].pcs[t].FirstSet? || tr[n].pcs[t].RefillSet?)
    ensures tr[n].pcs[t].c in tr[n].chunks && tr[n].chunks[tr[n].pcs[t].c].live == map[]
    ensures forall u :: u in tr[n].tls ==> tr[n].tls[u] != tr[n].pcs[t].c
    ensures forall u :: u in tr[n].pcs && u != t && tr[n].pcs[u].Holds() ==> tr[n].pcs[u].c != tr[n].pcs[t].c
  {
    RunInv(tr, n);
    var s := tr[n];
    assert ThreadOk(s.chunks, s.tls, t, s.pcs[t]) && ChunkOk(s.chunks[s.pcs[t].c]);
    assert forall u :: u in s.pcs ==> ThreadOk(s.chunks, s.tls, u, s.pcs[u]);
  }

  ghost function Used(s: System): set<ChunkId> {
    set c | c in s.chunks && s.chunks[c].place != Pooled
  }

  ghost function Objects(s: System): set<(ChunkId, Ticket)> {
    set c, k | c in s.chunks && k in s.chunks[c].live :: (c, k)
  }

  /** `GetUseCount` multiplies the chunks out of the pool by 500: an upper bound for the live objects. */
  lemma UseCountBounds(tr: seq<System>, n: nat)
    requires Run(tr) && n < |tr|
    ensures |Objects(tr[n])| <= CHUNK_SIZE * |Used(tr[n])|
  {
    RunInv(tr, n);
    assert forall c :: c in tr[n].chunks ==> ChunkOk(tr[n].chunks[c]);
    ByChunk(tr[n].chunks, Objects(tr[n]), Used(tr[n]));
  }

  lemma {:induction false} ByChunk(chunks: Chunks, objects: set<(ChunkId, Ticket)>, used: set<ChunkId>)
    requires forall c :: c in chunks ==> |chunks[c].live| <= CHUNK_SIZE
    requires forall x :: x in objects ==> x.0 in used && x.0 in chunks && x.1 in chunks[x.0].live
    ensures |objects| <= CHUNK_SIZE * |used|
    decreases |used|
  {
    if objects != {} {
      var x :| x in objects;
      var c := x.0;
      var mine, rest := set y | y in objects && y.0 == c, set y | y in objects && y.0 != c;
      ByChunk(chunks, rest, used - {c});
      InChunk(mine, c, chunks[c].live.Keys);
      assert objects == mine + rest && mine !! rest;
      assert |chunks[c].live.Keys| == |chunks[c].live|;
    }
  }

  lemma {:induction false} InChunk(objects: set<(ChunkId, Ticket)>, c: ChunkId, tickets: set<Ticket>)
    requires forall x :: x in objects ==> x.0 == c && x.1 in tickets
    ensures |objects| <= |tickets|
    decreases |tickets|
  {
    if objects != {} {
      var x :| x in objects;
      InChunk(objects - {x}, c, tickets - {x.1});
    }
  }
}
