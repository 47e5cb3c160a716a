/** What a stamped top word and a chain of `next` links keep, shared by the object pool and the stack.

    `chain` is the list from the top down and `ver` the number of successful exchanges so far; both are
    history that the code does not store. */
module Treiber {
  import opened Stamps

  function First(chain: seq<Address>): Address {
    if chain == [] then NULL else chain[0]
  }

  function Rest(chain: seq<Address>): seq<Address> {
    if chain == [] then [] else chain[1..]
  }

  /** A read through a pointer; null outside the nodes that exist. */
  function Load(next: map<Address, Address>, p: Address): Address {
    if p in next then next[p] else NULL
  }

  ghost predicate Distinct(chain: seq<Address>) {
    forall i, j :: 0 <= i < j < |chain| ==> chain[i] != chain[j]
  }

  /** The link of position `i` leads to the next position, or ends the list. */
  ghost predicate LinkAt(next: map<Address, Address>, chain: seq<Address>, i: int)
    requires 0 <= i < |chain|
  {
    chain[i] in next && next[chain[i]] == if i + 1 < |chain| then chain[i + 1] else NULL
  }

  /** Following `next` from the top word visits exactly `chain` and ends at null. */
  ghost predicate Linked(top: Word, next: map<Address, Address>, ver: nat, chain: seq<Address>) {
    && top == Word(ver % STAMPS, First(chain))
    && NULL !in chain
    && Distinct(chain)
    && (forall i :: 0 <= i < |chain| ==> LinkAt(next, chain, i))
  }

  /** `copy` was read from the top word when `v` exchanges had succeeded. */
  ghost predicate ReadAt(top: Word, ver: nat, copy: Word, v: nat) {
    v <= ver && copy.stamp == v % STAMPS && (v == ver ==> copy == top)
  }

  /** A compare-exchange fewer than 2^17 exchanges after the read wins exactly when there was none. */
  lemma WinMeansUnchanged(top: Word, next: map<Address, Address>, ver: nat, chain: seq<Address>, copy: Word, v: nat)
    requires Linked(top, next, ver, chain) && ReadAt(top, ver, copy, v)
    requires ver < v + STAMPS
    ensures copy == top <==> v == ver
  {
    StampTellsVersion(v, ver);
  }

  lemma PopKeepsLinked(top: Word, next: map<Address, Address>, ver: nat, chain: seq<Address>)
    requires Linked(top, next, ver, chain) && chain != []
    ensures Linked(top.Bump(Load(next, top.addr)), next, ver + 1, Rest(chain))
  {
    var rest := Rest(chain);
    assert LinkAt(next, chain, 0);
    forall i | 0 <= i < |rest| ensures LinkAt(next, rest, i) {
      assert LinkAt(next, chain, i + 1);
    }
  }

  lemma PushKeepsLinked(top: Word, next: map<Address, Address>, ver: nat, chain: seq<Address>, p: Address)
    requires Linked(top, next, ver, chain)
    requires p != NULL && p !in chain && p in next && next[p] == top.addr
    ensures Linked(top.Bump(p), next, ver + 1, [p] + chain)
  {
    var grown := [p] + chain;
    forall i | 0 <= i < |grown| ensures LinkAt(next, grown, i) {
      assert i > 0 ==> LinkAt(next, chain, i - 1);
    }
  }

  /** The links of nodes outside the chain do not matter to it. */
  lemma WriteOutsideKeepsLinked(top: Word, next: map<Address, Address>, ver: nat, chain: seq<Address>, p: Address,
                                q: Address)
    requires Linked(top, next, ver, chain) && p !in chain
    ensures Linked(top, next[p := q], ver, chain)
  {
    var written := next[p := q];
    forall i | 0 <= i < |chain| ensures LinkAt(written, chain, i) {
      assert LinkAt(next, chain, i);
    }
  }

  /** A node put in front before any exchange, as when a pool is constructed. */
  lemma FirstLink(next: map<Address, Address>, chain: seq<Address>, p: Address)
    requires Linked(Word(0, First(chain)), next, 0, chain) && p != NULL && p !in chain
    ensures Linked(Word(0, p), next[p := First(chain)], 0, [p] + chain)
    ensures Nodes([p] + chain) == Nodes(chain) + {p}
  {
    var written, grown := next[p := First(chain)], [p] + chain;
    forall i | 0 <= i < |grown| ensures LinkAt(written, grown, i) {
      assert i > 0 ==> LinkAt(next, chain, i - 1);
    }
  }

  ghost function Nodes(chain: seq<Address>): set<Address> {
    set p | p in chain
  }

  /** A chain without repetition has as many nodes as it has positions. */
  lemma {:induction false} DistinctSize(chain: seq<Address>)
    requires Distinct(chain)
    ensures |Nodes(chain)| == |chain|
  {
    if chain != [] {
      var rest := chain[1..];
      DistinctSize(rest);
      assert Nodes(chain) == {chain[0]} + Nodes(rest) by {
        assert chain == [chain[0]] + rest;
      }
      assert chain[0] !in Nodes(rest);
    }
  }
}
