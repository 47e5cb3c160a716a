/** `LFObjectPool` by what its calls saw: an observer of the pool's runs notes whether a call saw the free list
    empty. */
module PoolSights {
  import opened Stamps
  import opened ObjectPool

  /** `empty`: the threads whose latest call has seen the free list empty. */
  datatype Observed = Observed(q: Pool, empty: set<nat>)

  ghost predicate Acts(o: Observed, t: nat, p: Address, alloc: bool, o': Observed)
    requires t in o.q.pcs
  {
    && Step(o.q, t, p, alloc, o'.q) && Fresh(o.q, t)
    && o'.empty == if o.q.pcs[t].Idle? then o.empty - {t} else if o.q.top.addr == NULL then o.empty + {t} else o.empty
  }

  ghost predicate NextObserved(o: Observed, o': Observed) {
    exists t, p, alloc :: t in o.q.pcs && Acts(o, t, p, alloc, o')
  }

  ghost predicate ObservedRun(tr: seq<Observed>, nodes: seq<Address>) {
    && tr != [] && Init(tr[0].q, nodes) && tr[0].empty == {}
    && (forall i :: 0 <= i < |tr| - 1 ==> NextObserved(tr[i], tr[i + 1]))
  }

  predicate Grows(pc: Pc) { pc.GrowCapacity? || pc.GrowUse? || pc.GrowNew? }

  ghost predicate Watched(o: Observed) {
    forall t :: t in o.q.pcs && Grows(o.q.pcs[t]) ==> t in o.empty
  }

  lemma NextWatched(o: Observed, o': Observed)
    requires Watched(o) && NextObserved(o, o')
    ensures Watched(o')
  {
    var t, p, alloc :| t in o.q.pcs && Acts(o, t, p, alloc, o');
    StepFrame(o.q, t, p, alloc, o'.q);
    GrowsAfter(o.q, o.q.pcs[t], p, alloc);
  }

  lemma GrowsAfter(s: Pool, pc: Pc, p: Address, alloc: bool)
    ensures Grows(NextPc(s, pc, p, alloc)) ==> Grows(pc) || (pc.AllocRead? && s.top.addr == NULL)
  {}

  lemma {:induction false} RunWatched(tr: seq<Observed>, nodes: seq<Address>, n: nat)
    requires ObservedRun(tr, nodes) && n < |tr|
    ensures Watched(tr[n]) && Inv(tr[n].q)
  {
    if n == 0 {
      InitInv(tr[0].q, nodes);
    } else {
      RunWatched(tr, nodes, n - 1);
      assert NextObserved(tr[n - 1], tr[n - 1 + 1]);
      NextWatched(tr[n - 1], tr[n]);
      NextInv(tr[n - 1], tr[n]);
    }
  }

  lemma NextInv(o: Observed, o': Observed)
    requires Inv(o.q) && NextObserved(o, o')
    ensures Inv(o'.q)
  {
    assert NextFresh(o.q, o'.q);
    StepInv(o.q, o'.q);
  }

  lemma WritesKnown(s: Pool, t: nat)
    requires Inv(s) && t in s.pcs
    ensures s.pcs[t].FreeLink? ==> s.pcs[t].p in s.next
  {
    assert Held(s.pcs[t]) != NULL ==> Held(s.pcs[t]) in s.owner;
  }

  lemma KeysOf(s: Pool, t: nat, pc: Pc, p: Address, alloc: bool)
    requires pc.FreeLink? ==> pc.p in s.next
    ensures var s' := Do(s, t, pc, p, alloc);
      !Grows(pc) ==> s'.next.Keys == s.next.Keys && s'.capacity == s.capacity
  {}

  /** The pool creates a node, and raises its capacity, only in a call that has seen the free list empty. */
  lemma GrowsWhenEmpty(tr: seq<Observed>, nodes: seq<Address>, n: nat, t: nat, p: Address, alloc: bool)
    requires ObservedRun(tr, nodes) && n + 1 < |tr| && t in tr[n].q.pcs && Acts(tr[n], t, p, alloc, tr[n + 1])
    requires tr[n + 1].q.next.Keys != tr[n].q.next.Keys || tr[n + 1].q.capacity != tr[n].q.capacity
    ensures t in tr[n].empty
  {
    RunWatched(tr, nodes, n);
    WritesKnown(tr[n].q, t);
    KeysOf(tr[n].q, t, tr[n].q.pcs[t], p, alloc);
  }
}
