/** Sequences given in pieces. */
module Sequences {
  function Flat<T>(pieces: seq<seq<T>>): seq<T> {
    if pieces == [] then [] else pieces[0] + Flat(pieces[1..])
  }

  lemma {:induction false} FlatAppend<T>(pieces: seq<seq<T>>, piece: seq<T>)
    ensures Flat(pieces + [piece]) == Flat(pieces) + piece
  {
    if pieces == [] {
      assert pieces + [piece] == [piece];
    } else {
      FlatAppend(pieces[1..], piece);
      assert (pieces + [piece])[1..] == pieces[1..] + [piece];
    }
  }

  lemma {:induction false} FlatConcat<T>(front: seq<seq<T>>, back: seq<seq<T>>)
    ensures Flat(front + back) == Flat(front) + Flat(back)
  {
    if back == [] {
      assert front + back == front && Flat(front) + [] == Flat(front);
    } else {
      var init, last := back[..|back| - 1], back[|back| - 1];
      FlatConcat(front, init);
      FlatAppend(front + init, last);
      FlatAppend(init, last);
      assert front + back == front + init + [last] && back == init + [last];
    }
  }
}
