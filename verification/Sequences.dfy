/** Sequences cut into pieces. */
module Sequences {

  /** The pieces one after another. */
  ghost function Flat<T>(pieces: seq<seq<T>>): seq<T> {
    if pieces == [] then [] else Flat(pieces[..|pieces| - 1]) + pieces[|pieces| - 1]
  }

  lemma FlatOneMore<T>(pieces: seq<seq<T>>, piece: seq<T>)
    ensures Flat(pieces + [piece]) == Flat(pieces) + piece
  {
    assert (pieces + [piece])[..|pieces|] == pieces;
  }
}
