/** A shell command's output: its first bytes, its last bytes, and how many were dropped between. */
module BoundedOutput {
  import opened Scanning
  import opened Sequences

  const HEAD_CAP: nat := 512 * 1024
  const TAIL_CAP: nat := 3 * 512 * 1024

  /** What a reader sees: everything, or a clipped text with the number of missing bytes. */
  datatype Text =
    | Whole(bytes: Bytes)
    | Clipped(head: Bytes, dropped: nat, tail: Bytes)

  /** The text of an output, as a function of everything written. */
  function TextOf(all: Bytes): Text {
    if |all| <= HEAD_CAP + TAIL_CAP then Whole(all)
    else Clipped(all[..HEAD_CAP], |all| - HEAD_CAP - TAIL_CAP, all[|all| - TAIL_CAP..])
  }

  /** Cutting bytes off the first chunk cuts them off the whole. */
  lemma FlatTrim(chunks: seq<Bytes>, k: nat)
    requires chunks != [] && k <= |chunks[0]|
    ensures Flat([chunks[0][k..]] + chunks[1..]) == Flat(chunks)[k..]
    ensures k == |chunks[0]| ==> Flat(chunks[1..]) == Flat(chunks)[k..]
  {
    assert ([chunks[0][k..]] + chunks[1..])[1..] == chunks[1..];
  }

  function Last(all: Bytes, n: nat): Bytes {
    if |all| <= n then all else all[|all| - n..]
  }

  /** Keeping the last bytes piece by piece keeps the last bytes of the whole. */
  lemma LastInPieces(front: Bytes, back: Bytes, n: nat)
    ensures Last(Last(front, n) + back, n) == Last(front + back, n)
  {
  }

  function HeadOf(all: Bytes): Bytes {
    all[..if |all| < HEAD_CAP then |all| else HEAD_CAP]
  }

  function RestOf(all: Bytes): Bytes {
    all[if |all| < HEAD_CAP then |all| else HEAD_CAP..]
  }

  /** New bytes first fill the head; what is left goes behind the rest. */
  lemma HeadTakesFirst(all: Bytes, bytes: Bytes)
    ensures
      var room := if |all| < HEAD_CAP then HEAD_CAP - |all| else 0;
      var n := if room < |bytes| then room else |bytes|;
      && HeadOf(all + bytes) == HeadOf(all) + bytes[..n]
      && RestOf(all + bytes) == RestOf(all) + bytes[n..]
  {
    if |all| < HEAD_CAP {
      assert RestOf(all) == [];
    }
  }

  class BoundedBuffer {
    var head: Bytes
    var tail: seq<Bytes>
    var tailSize: nat
    var dropped: nat
    /** Everything ever written. */
    ghost var all: Bytes

    ghost predicate Valid()
      reads this
    {
      && head == HeadOf(all)
      && Flat(tail) == Last(RestOf(all), TAIL_CAP)
      && tailSize == |Flat(tail)|
      && dropped == |all| - |head| - tailSize
    }

    constructor ()
      ensures Valid() && all == []
    {
      head, tail, tailSize, dropped, all := [], [], 0, 0, [];
    }

    method Write(bytes: Bytes)
      requires Valid()
      modifies this
      ensures Valid() && all == old(all) + bytes
    {
      var chunk := FillHead(bytes);
      LastInPieces(RestOf(all), chunk, TAIL_CAP);
      all := all + bytes;
      if chunk == [] {
        return;
      }
      AppendTail(chunk);
    }

    /** The head takes what it still has room for; the rest is returned. */
    method FillHead(bytes: Bytes) returns (chunk: Bytes)
      requires head == HeadOf(all)
      modifies this`head
      ensures head == HeadOf(all + bytes) && RestOf(all + bytes) == RestOf(all) + chunk
      ensures |head| - old(|head|) == |bytes| - |chunk|
    {
      HeadTakesFirst(all, bytes);
      chunk := bytes;
      if |head| < HEAD_CAP {
        var take := HEAD_CAP - |head|;
        var n := if take < |chunk| then take else |chunk|;
        head := head + chunk[..n];
        chunk := chunk[n..];
      }
    }

    method AppendTail(chunk: Bytes)
      requires tailSize == |Flat(tail)|
      modifies this`tail, this`tailSize, this`dropped
      ensures Flat(tail) == Last(old(Flat(tail)) + chunk, TAIL_CAP) && tailSize == |Flat(tail)|
      ensures dropped == old(dropped) + old(tailSize) + |chunk| - tailSize
    {
      FlatAppend(tail, chunk);
      tail := tail + [chunk];
      tailSize := tailSize + |chunk|;
      Trim();
    }

    /** Drops the oldest bytes until exactly the cap remains. */
    method Trim()
      requires tailSize == |Flat(tail)|
      modifies this`tail, this`tailSize, this`dropped
      ensures Flat(tail) == Last(old(Flat(tail)), TAIL_CAP) && tailSize == |Flat(tail)|
      ensures dropped == old(dropped) + old(tailSize) - tailSize
    {
      ghost var start := Flat(tail);
      while tailSize > TAIL_CAP
        invariant tailSize == |Flat(tail)| <= |start|
        invariant Flat(tail) == start[|start| - tailSize..]
        invariant tailSize >= TAIL_CAP || tailSize == |start|
        invariant dropped == old(dropped) + |start| - tailSize
        decreases |tail|, tailSize
      {
        var excess := tailSize - TAIL_CAP;
        var oldest := tail[0];
        if |oldest| <= excess {
          FlatTrim(tail, |oldest|);
          tail := tail[1..];
          tailSize := tailSize - |oldest|;
          dropped := dropped + |oldest|;
        } else {
          FlatTrim(tail, excess);
          tail := [oldest[excess..]] + tail[1..];
          tailSize := tailSize - excess;
          dropped := dropped + excess;
        }
      }
    }

    method Size() returns (n: nat)
      requires Valid()
      ensures n == if |all| < HEAD_CAP + TAIL_CAP then |all| else HEAD_CAP + TAIL_CAP
    {
      n := |head| + tailSize;
    }

    method Text() returns (t: Text)
      requires Valid()
      ensures t == TextOf(all)
    {
      var joined := Join(tail);
      if dropped == 0 {
        assert all == HeadOf(all) + RestOf(all);
        return Whole(head + joined);
      }
      return Clipped(head, dropped, joined);
    }
  }

  method Join(chunks: seq<Bytes>) returns (joined: Bytes)
    ensures joined == Flat(chunks)
  {
    joined := [];
    for i := 0 to |chunks|
      invariant joined == Flat(chunks[..i])
    {
      FlatAppend(chunks[..i], chunks[i]);
      assert chunks[..i + 1] == chunks[..i] + [chunks[i]];
      joined := joined + chunks[i];
    }
    assert chunks[..|chunks|] == chunks;
  }

  /** A clipped text accounts for every byte: head, dropped middle, tail. */
  lemma TextAccountsForAll(all: Bytes)
    ensures match TextOf(all)
            case Whole(bytes) => bytes == all && |all| <= HEAD_CAP + TAIL_CAP
            case Clipped(head, dropped, tail) =>
              |head| == HEAD_CAP && |tail| == TAIL_CAP && dropped > 0 && |head| + dropped + |tail| == |all|
              && exists middle :: |middle| == dropped && all == head + middle + tail
  {
    if |all| > HEAD_CAP + TAIL_CAP {
      var middle := all[HEAD_CAP..|all| - TAIL_CAP];
      assert all == all[..HEAD_CAP] + middle + all[|all| - TAIL_CAP..];
    }
  }
}
