/** Why the pool needs its hypothesis: after exactly 2^17 exchanges the stamp is the copied one again. A run of
    two threads on a pool of three nodes at whose end an object that a client holds is on top of the free list. */
module StampWrap {
  import opened Runs
  import opened Stamps
  import opened Ownership
  import opened ObjectPool
  import Treiber

  /** A run of any number of exchanges per attempt. */
  ghost predicate AnyRun(tr: seq<Pool>, nodes: seq<Address>) {
    && tr != [] && Init(tr[0], nodes)
    && (forall i :: 0 <= i < |tr| - 1 ==> Next(tr[i], tr[i + 1]))
  }

  ghost function Steps(): (Pool, Pool) -> bool { (s, s') => Next(s, s') }

  lemma Go(good: Pool -> bool, s: Pool, t: nat, p: Address, alloc: bool) returns (s': Pool)
    requires Closed(Steps(), good) && good(s) && t in s.pcs && !s.pcs[t].GrowNew?
    requires s.pcs[t].Idle? && !alloc ==> s.IsOut(p)
    ensures s' == Do(s, t, s.pcs[t], p, alloc).Go(t, NextPc(s, s.pcs[t], p, alloc)) && good(s')
  {
    s' := Do(s, t, s.pcs[t], p, alloc).Go(t, NextPc(s, s.pcs[t], p, alloc));
    assert Step(s, t, p, alloc, s');
    assert Steps()(s, s');
  }

  /** A whole `Alloc` of thread 1 that finds a free node. */
  ghost function Allocated(s: Pool): Pool {
    s.Give(s.top.addr, Client).(top := s.top.Bump(Treiber.Load(s.next, s.top.addr)), ver := s.ver + 1,
                                chain := Treiber.Rest(s.chain), useCount := s.useCount + 1)
  }

  lemma AllocOne(good: Pool -> bool, s: Pool)
    requires Closed(Steps(), good) && good(s) && 1 in s.pcs && s.pcs[1] == Idle && s.top.addr != NULL
    ensures good(Allocated(s))
  {
    var s' := Go(good, s, 1, NULL, true);
    s' := Go(good, s', 1, NULL, true);
    s' := Go(good, s', 1, NULL, true);
    assert s'.pcs == s.pcs[1 := AllocCas(s.top, s.ver, Treiber.Load(s.next, s.top.addr))];
    s' := Pops(good, s', s.top, s.ver, Treiber.Load(s.next, s.top.addr));
    assert s'.pcs == s.pcs;
  }

  lemma Pops(good: Pool -> bool, s: Pool, copy: Word, v: nat, succ: Address) returns (s': Pool)
    requires Closed(Steps(), good) && good(s) && 1 in s.pcs && s.pcs[1] == AllocCas(copy, v, succ) && s.top == copy
    ensures good(s') && s' == s.Give(copy.addr, Client).(top := copy.Bump(succ), ver := s.ver + 1,
                                chain := Treiber.Rest(s.chain), useCount := s.useCount + 1, pcs := s.pcs[1 := Idle])
  {
    s' := Go(good, s, 1, NULL, true);
    s' := Go(good, s', 1, NULL, true);
    assert s'.pcs == s.pcs[1 := Idle] && s'.owner == s.owner[copy.addr := Client];
  }

  /** A whole `Free` of thread 1. */
  ghost function Freed(s: Pool, q: Address): Pool {
    s.Give(q, Listed).(next := s.next[q := s.top.addr], top := s.top.Bump(q), ver := s.ver + 1,
                       chain := [q] + s.chain, useCount := s.useCount - 1)
  }

  lemma FreeOne(good: Pool -> bool, s: Pool, q: Address)
    requires Closed(Steps(), good) && good(s) && 1 in s.pcs && s.pcs[1] == Idle && s.IsOut(q)
    ensures good(Freed(s, q))
  {
    var s' := Go(good, s, 1, q, false);
    s' := Go(good, s', 1, NULL, true);
    s' := Go(good, s', 1, NULL, true);
    s' := Go(good, s', 1, NULL, true);
    s' := Go(good, s', 1, NULL, true);
    assert s'.pcs == s.pcs && s'.owner == Freed(s, q).owner;
  }

  ghost function Start(): Pool {
    Pool(Word(0, 1), map[1 := 2, 2 := 3, 3 := NULL], 3, 0, map[0 := Idle, 1 := Idle], 0, [1, 2, 3],
         map[1 := Listed, 2 := Listed, 3 := Listed])
  }

  /** Thread 0 is about to replace node 1 by node 2; meanwhile thread 1 has made `v` exchanges, node 1 is free and
      nodes 2 and 3 are handed out. */
  ghost function Stale(v: nat): Pool {
    Pool(Word(v % STAMPS, 1), map[1 := NULL, 2 := 3, 3 := NULL], 3, 2, map[0 := AllocCas(Word(0, 1), 0, 2), 1 := Idle],
         v, [1], map[1 := Listed, 2 := Client, 3 := Client])
  }

  ghost function Copied(): Pool { Start().Go(0, AllocCas(Word(0, 1), 0, 2)) }

  lemma FirstThreadCopies(good: Pool -> bool)
    requires Closed(Steps(), good) && good(Start())
    ensures good(Copied())
  {
    var s := Go(good, Start(), 0, NULL, true);
    s := Go(good, s, 0, NULL, true);
    s := Go(good, s, 0, NULL, true);
    assert s.pcs == Copied().pcs;
  }

  /** Thread 1 has taken all three nodes. */
  ghost function AllOut(): Pool {
    Pool(Word(3, NULL), map[1 := 2, 2 := 3, 3 := NULL], 3, 3, map[0 := AllocCas(Word(0, 1), 0, 2), 1 := Idle],
         3, [], map[1 := Client, 2 := Client, 3 := Client])
  }

  lemma SecondThreadTakesThree(good: Pool -> bool)
    requires Closed(Steps(), good) && good(Copied())
    ensures good(AllOut())
  {
    var s := Copied();
    AllocOne(good, s);
    AllocOne(good, Allocated(s));
    AllocOne(good, Allocated(Allocated(s)));
    var out := Allocated(Allocated(Allocated(s)));
    assert out.owner == AllOut().owner && out.pcs == AllOut().pcs && out.chain == [];
    assert out.top == AllOut().top;
  }

  lemma SecondThreadFreesOne(good: Pool -> bool)
    requires Closed(Steps(), good) && good(AllOut())
    ensures good(Stale(4))
  {
    FreeOne(good, AllOut(), 1);
    assert Freed(AllOut(), 1) == Stale(4);
  }

  /** Thread 1 allocates and frees node 1: two more exchanges, and everything else is as before. */
  lemma Round(good: Pool -> bool, v: nat)
    requires Closed(Steps(), good) && good(Stale(v))
    ensures good(Stale(v + 2))
  {
    var s := Stale(v);
    AllocOne(good, s);
    FreeOne(good, Allocated(s), 1);
    BumpTwice(v);
    assert Freed(Allocated(s), 1) == Stale(v + 2);
  }

  lemma BumpTwice(v: nat)
    ensures Word(v % STAMPS, 1).Bump(NULL).Bump(1) == Word((v + 2) % STAMPS, 1)
  {}

  lemma {:induction false} Rounds(good: Pool -> bool, v: nat, n: nat)
    requires Closed(Steps(), good) && good(Stale(v))
    ensures good(Stale(v + 2 * n))
  {
    if n > 0 {
      Rounds(good, v, n - 1);
      Round(good, v + 2 * (n - 1));
    }
  }

  lemma FirstThreadWins(good: Pool -> bool) returns (s: Pool)
    requires Closed(Steps(), good) && good(Stale(STAMPS))
    ensures good(s) && s.ver == STAMPS + 1 && s.IsOut(s.top.addr)
  {
    s := Go(good, Stale(STAMPS), 0, NULL, true);
  }

  /** There is a run in which an `Alloc` wins although 2^17 exchanges happened since its copy, and a handed-out
      object is on top of the free list. */
  lemma BoundIsNeeded() returns (tr: seq<Pool>)
    ensures AnyRun(tr, [1, 2, 3]) && tr[|tr| - 1].ver == STAMPS + 1 && tr[|tr| - 1].IsOut(tr[|tr| - 1].top.addr)
  {
    StartInit();
    FromIsClosed(Steps(), Start());
    var last := WrapAround(From(Steps(), Start()));
    tr :| Path(Steps(), tr) && tr[0] == Start() && tr[|tr| - 1] == last;
  }

  lemma StartInit()
    ensures Init(Start(), [1, 2, 3])
  {
    assert Treiber.Nodes([1, 2, 3]) == {1, 2, 3};
  }

  lemma WrapAround(good: Pool -> bool) returns (s: Pool)
    requires Closed(Steps(), good) && good(Start())
    ensures good(s) && s.ver == STAMPS + 1 && s.IsOut(s.top.addr)
  {
    FirstThreadCopies(good);
    SecondThreadTakesThree(good);
    SecondThreadFreesOne(good);
    var n := (STAMPS - 4) / 2;
    Rounds(good, 4, n);
    assert 4 + 2 * n == STAMPS;
    s := FirstThreadWins(good);
  }
}
