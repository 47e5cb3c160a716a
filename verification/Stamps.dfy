/** The packed words of the lock-free containers: 47 address bits below a 17-bit stamp.

    The mask expressions of the code are studied twice. On `bv64` they are what the code writes; on numbers they are
    related to the pair of a stamp and an address on which the protocols are stated. That a `bv64` and its number
    agree is not proved here. */
module Stamps {

  const STAMP_MASK: bv64 := 0xFFFF_8000_0000_0000
  const USE_BIT_MASK: bv64 := 0x0000_7FFF_FFFF_FFFF
  const STAMP_COUNT: bv64 := 0x0000_8000_0000_0000

  /** The number of stamps before the 17-bit field wraps. */
  const STAMPS: nat := 0x2_0000
  const ADDRESSES: nat := 0x8000_0000_0000
  const WORDS: nat := 0x1_0000_0000_0000_0000

  type Address = nat
  const NULL: Address := 0

  datatype Word = Word(stamp: nat, addr: Address) {
    predicate Valid() { stamp < STAMPS && addr < ADDRESSES }

    /** What a successful compare-exchange installs: the next stamp over a new address. */
    function Bump(p: Address): (w: Word) {
      Word((stamp + 1) % STAMPS, p)
    }
  }

  // ----- bit level -----

  function Clean(w: bv64): bv64 { w & USE_BIT_MASK }

  function Field(w: bv64): bv64 { w >> 47 }

  function NextWord(w: bv64, p: bv64): bv64 { ((w + STAMP_COUNT) & STAMP_MASK) | p }

  /** The mask expression of the code changes the two fields independently: the address becomes `p`
      and the stamp field is incremented, wrapping inside its own 17 bits. */
  lemma NextWordFields(w: bv64, p: bv64)
    requires p & STAMP_MASK == 0
    ensures Clean(NextWord(w, p)) == p
    ensures Field(NextWord(w, p)) == if Field(w) == 0x1FFFF then 0 else Field(w) + 1
  {}

  /** A whole-word comparison is a comparison of both fields. */
  lemma WordEquality(a: bv64, b: bv64)
    ensures a == b <==> Clean(a) == Clean(b) && Field(a) == Field(b)
  {}

  // ----- number level -----

  function Pack(w: Word): nat { w.stamp * ADDRESSES + w.addr }

  /** `((x + kStampCount) & kStampMask) | p` on numbers: wrap at 64 bits, drop the low 47, add `p`. */
  function NextNumber(x: nat, p: Address): nat {
    (x + ADDRESSES) % WORDS / ADDRESSES * ADDRESSES + p
  }

  lemma PackIsInjective(a: Word, b: Word)
    requires a.Valid() && b.Valid()
    ensures Pack(a) < WORDS
    ensures Pack(a) == Pack(b) <==> a == b
  {}

  /** Advancing the packed number is bumping the pair. */
  lemma PackBump(w: Word, p: Address)
    requires w.Valid() && p < ADDRESSES
    ensures NextNumber(Pack(w), p) == Pack(w.Bump(p))
    ensures w.Bump(p).Valid()
  {
    var x := Pack(w) + ADDRESSES;
    assert x == (w.stamp + 1) * ADDRESSES + w.addr;
    if w.stamp + 1 == STAMPS {
      assert x == WORDS + w.addr;
      assert x % WORDS == w.addr;
    } else {
      assert x < WORDS;
      assert x / ADDRESSES == w.stamp + 1;
    }
  }

  /** Fewer than 2^17 bumps apart, equal stamps mean no bump at all. */
  lemma StampTellsVersion(v: nat, now: nat)
    requires v <= now < v + STAMPS
    ensures v % STAMPS == now % STAMPS <==> v == now
  {}

  /** The bound is exact: a reader overtaken by 2^17 bumps sees its own stamp again. */
  lemma StampWraps(v: nat, k: nat)
    ensures (v + k) % STAMPS == v % STAMPS <==> k % STAMPS == 0
  {}
}
