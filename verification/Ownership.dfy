/** Unique ownership of recycled nodes: each is on a container's list, in a client's hands (or free in the
    pool), or held by the one call that may still write it. */
module Ownership {
  import opened Stamps

  datatype Owner = Listed | Client | Call(t: nat)

  predicate IsClient(o: Owner) { o.Client? }

  /** `held` names the node a program point holds, or null. */
  ghost predicate Unique<P(!new)>(pcs: map<nat, P>, held: P -> Address, owner: map<Address,
                           Owner>, chain: seq<Address>) {
    && NULL !in owner
    && (forall p :: p in chain <==> p in owner && owner[p] == Listed)
    && (forall t :: t in pcs && held(pcs[t]) != NULL ==> held(pcs[t]) in owner && owner[held(pcs[t])] == Call(t))
    && (forall p :: p in owner && owner[p].Call? ==> owner[p].t in pcs && held(pcs[owner[p].t]) == p)
  }

  /** Passing node `q` on, to or from the call of thread `t` or the list, keeps owners unique. */
  lemma Passing<P(!new)>(pcs: map<nat, P>, held: P -> Address, owner: map<Address, Owner>, chain: seq<Address>,
                         t: nat, pc: P, q: Address, o: Owner, chain': seq<Address>)
    requires Unique(pcs, held, owner, chain) && t in pcs && q != NULL
    requires q in owner && owner[q].Call? ==> owner[q].t == t
    requires held(pcs[t]) == NULL || held(pcs[t]) == q
    requires held(pc) == if o.Call? then q else NULL
    requires o.Call? ==> o.t == t
    requires forall r :: r in chain' <==> if r == q then o == Listed else r in chain
    ensures Unique(pcs[t := pc], held, owner[q := o], chain')
  {}

  lemma Staying<P(!new)>(pcs: map<nat, P>, held: P -> Address, owner: map<Address, Owner>, chain: seq<Address>,
                         t: nat, pc: P)
    requires Unique(pcs, held, owner, chain) && t in pcs && held(pc) == held(pcs[t])
    ensures Unique(pcs[t := pc], held, owner, chain)
  {}

  /** What uniqueness means: a node is on the list, out, or held, and held by one thread only. */
  lemma OneOwner<P(!new)>(pcs: map<nat, P>, held: P -> Address, owner: map<Address,
                   Owner>, chain: seq<Address>, p: Address)
    requires Unique(pcs, held, owner, chain) && p in owner
    ensures p in chain ==> owner[p] != Client
    ensures p in chain || owner[p] == Client ==> forall t :: t in pcs ==> held(pcs[t]) != p
    ensures forall t, u :: t in pcs && u in pcs && held(pcs[t]) == p && held(pcs[u]) == p ==> t == u
    ensures p in chain || owner[p] == Client || exists t :: t in pcs && held(pcs[t]) == p
  {
    if owner[p].Call? {
      assert held(pcs[owner[p].t]) == p;
    }
  }
}
