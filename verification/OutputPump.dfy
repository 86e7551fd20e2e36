/**
 * The pump that ships a captured-output pipe: drain tokens written into the pipe are
 * fences, cut out of the stream before it reaches the host.
 */
module OutputPump {
  import opened Wrappers
  import opened Scanning
  import opened Sequences

  /** The stream without its tokens, searched from left to right without overlaps. */
  function Strip(data: Bytes, token: Bytes): Bytes
    requires token != []
    decreases |data|
  {
    var i := Find(data, token);
    if i == -1 then data else data[..i] + Strip(data[i + |token|..], token)
  }

  /** What a stream amounts to: bytes to emit, bytes to hold back, bytes emitted at the first fence. */
  datatype Scanned = Scanned(out: Bytes, held: Bytes, fence: Option<nat>)

  function Scan(data: Bytes, token: Bytes): (r: Scanned)
    requires token != []
    decreases |data|
  {
    var i := Find(data, token);
    if i == -1 then
      var kept := |data| - Hold(data, token);
      Scanned(data[..kept], data[kept..], None)
    else
      var rest := Scan(data[i + |token|..], token);
      Scanned(data[..i] + rest.out, rest.held, Some(i))
  }

  lemma ScanFound(data: Bytes, token: Bytes, i: nat)
    requires token != [] && Find(data, token) == i
    ensures
      var rest := Scan(data[i + |token|..], token);
      Scan(data, token) == Scanned(data[..i] + rest.out, rest.held, Some(i))
  {
  }

  lemma ScanNotFound(data: Bytes, token: Bytes)
    requires token != [] && Find(data, token) == -1
    ensures
      var kept := |data| - Hold(data, token);
      Scan(data, token) == Scanned(data[..kept], data[kept..], None)
  {
  }

  lemma Regroup(a: Bytes, b: Bytes, c: Bytes)
    ensures a + b + c == a + (b + c)
  {
  }

  lemma Halves(data: Bytes, k: nat)
    requires k <= |data|
    ensures data[..k] + data[k..] == data
  {
  }

  lemma StripFound(data: Bytes, token: Bytes)
    requires token != []
    ensures
      var i := Find(data, token);
      Strip(data, token) == if i == -1 then data else data[..i] + Strip(data[i + |token|..], token)
  {
  }

  /** Nothing but the tokens is lost. */
  lemma {:induction false} ScanLosesOnlyTokens(data: Bytes, token: Bytes)
    requires token != []
    ensures Scan(data, token).out + Scan(data, token).held == Strip(data, token)
    decreases |data|
  {
    hide Scan, Strip, Hold;
    var i := Find(data, token);
    StripFound(data, token);
    if i == -1 {
      ScanNotFound(data, token);
      Halves(data, |data| - Hold(data, token));
    } else {
      var after := data[i + |token|..];
      ScanLosesOnlyTokens(after, token);
      PrefixLosesNothing(data, token, i, Scan(after, token), Strip(after, token));
    }
  }

  lemma PrefixLosesNothing(data: Bytes, token: Bytes, i: nat, rest: Scanned, stripped: Bytes)
    requires token != [] && Find(data, token) == i && rest.out + rest.held == stripped
    requires rest == Scan(data[i + |token|..], token)
    ensures Scan(data, token).out + Scan(data, token).held == data[..i] + stripped
  {
    ScanFound(data, token, i);
    Regroup(data[..i], rest.out, rest.held);
  }

  /** Pieces, with a token between any two neighbours. */
  function Joined(pieces: seq<Bytes>, token: Bytes): Bytes {
    if pieces == [] then [] else if |pieces| == 1 then pieces[0] else pieces[0] + token + Joined(pieces[1..], token)
  }

  /** A stream cut at its tokens, each of which is the first behind the one before it. */
  ghost predicate CutAtTokens(stream: Bytes, token: Bytes, pieces: seq<Bytes>) {
    && pieces != [] && Joined(pieces, token) == stream
    && (forall k :: 0 <= k < |pieces| - 1 ==> FirstAt(pieces[k] + token, token, |pieces[k]|))
    && FirstAt(pieces[|pieces| - 1], token, -1)
  }

  lemma FirstPiece(data: Bytes, token: Bytes, i: nat)
    requires token != [] && Find(data, token) == i
    ensures FirstAt(data[..i] + token, token, i) && data[..i] + token + data[i + |token|..] == data
  {
    FindExactly(data, token, i);
    var front, rest := data[..i] + token, data[i + |token|..];
    assert front + rest == data;
    forall j: nat | j <= i
      ensures OccursAt(front, token, j) <==> OccursAt(data, token, j)
    {
      OccursBefore(front, rest, token, j);
    }
  }

  lemma OneMorePiece(data: Bytes, token: Bytes, i: nat, rest: seq<Bytes>)
    requires token != [] && Find(data, token) == i && CutAtTokens(data[i + |token|..], token, rest)
    ensures CutAtTokens(data, token, [data[..i]] + rest) && Flat([data[..i]] + rest) == data[..i] + Flat(rest)
  {
    var pieces := [data[..i]] + rest;
    assert pieces[1..] == rest;
    FirstPiece(data, token, i);
    forall k | 0 <= k < |pieces| - 1
      ensures FirstAt(pieces[k] + token, token, |pieces[k]|)
    {
      assert k > 0 ==> pieces[k] == rest[k - 1];
    }
  }

  /** What is left of a stream are the pieces between its tokens, and the longest start of a token is held back. */
  lemma {:induction false} ScanCutsAtTokens(data: Bytes, token: Bytes) returns (pieces: seq<Bytes>)
    requires token != []
    ensures CutAtTokens(data, token, pieces)
    ensures
      var r, last := Scan(data, token), pieces[|pieces| - 1];
      && r.out + r.held == Flat(pieces) && EndsWith(last, r.held) && LongestPartial(last, token, |r.held|)
      && r.fence == (if |pieces| == 1 then None else Some(|pieces[0]|))
    decreases |data|
  {
    hide Scan, Hold, Find, Strip, LongestPartial, CutAtTokens;
    var i := Find(data, token);
    if i == -1 {
      pieces := [data];
      LastPiece(data, token);
    } else {
      ScanFound(data, token, i);
      var after := data[i + |token|..];
      var rest := ScanCutsAtTokens(after, token);
      pieces := [data[..i]] + rest;
      OneMorePiece(data, token, i, rest);
      Regroup(data[..i], Scan(after, token).out, Scan(after, token).held);
      assert rest != [] by {
        CutIsNotEmpty(after, token, rest);
      }
    }
  }

  lemma CutIsNotEmpty(data: Bytes, token: Bytes, pieces: seq<Bytes>)
    requires CutAtTokens(data, token, pieces)
    ensures pieces != []
  {
  }

  lemma LastPiece(data: Bytes, token: Bytes)
    requires token != [] && Find(data, token) == -1
    ensures CutAtTokens(data, token, [data]) && Flat([data]) == data
    ensures
      var r := Scan(data, token);
      r.out + r.held == data && EndsWith(data, r.held) && LongestPartial(data, token, |r.held|) && r.fence.None?
  {
    FindExactly(data, token, -1);
    HoldExactly(data, token, Hold(data, token));
    Halves(data, |data| - Hold(data, token));
    assert Flat([data]) == data + Flat<byte>([data][1..]) == data;
  }

  function Then(first: Scanned, second: Scanned): Scanned {
    Scanned(first.out + second.out, second.held,
            if first.fence.Some? then first.fence
            else if second.fence.Some? then Some(|first.out| + second.fence.value) else None)
  }

  lemma PrefixThen(front: Bytes, a: Scanned, b: Scanned, i: nat)
    ensures Then(Scanned(front + a.out, a.held, Some(i)), b) == Scanned(front + (a.out + b.out), b.held, Some(i))
  {
    Regroup(front, a.out, b.out);
  }

  /** The first token of a stream, and what is before it, stay as they are when more is read. */
  lemma MoreComesLast(data: Bytes, token: Bytes, more: Bytes, i: nat)
    requires token != [] && Find(data, token) == i
    ensures Find(data + more, token) == i
    ensures (data + more)[..i] == data[..i] && (data + more)[i + |token|..] == data[i + |token|..] + more
  {
    FindInPrefix(data, token, more);
  }

  lemma ScanFrom(data: Bytes, token: Bytes, i: nat, front: Bytes, after: Bytes, r: Scanned)
    requires token != [] && Find(data, token) == i && front == data[..i] && after == data[i + |token|..]
    requires Scan(after, token) == r
    ensures Scan(data, token) == Scanned(front + r.out, r.held, Some(i))
  {
    ScanFound(data, token, i);
  }

  /** A token in the first piece: the two readings agree if they agree on what follows it. */
  lemma FoundInPieces(data: Bytes, token: Bytes, more: Bytes, i: nat, a: Scanned, b: Scanned)
    requires token != [] && Find(data, token) == i
    requires a == Scan(data[i + |token|..], token) && Scan(data[i + |token|..] + more, token) == Then(a, b)
    ensures Scan(data + more, token) == Then(Scan(data, token), b) && Scan(data, token).held == a.held
  {
    ScanFound(data, token, i);
    MoreComesLast(data, token, more, i);
    ScanFrom(data + more, token, i, data[..i], data[i + |token|..] + more, Then(a, b));
    PrefixThen(data[..i], a, b, i);
  }

  /** Reading a stream in two pieces is the same as reading it at once. */
  lemma {:induction false} ScanInPieces(data: Bytes, token: Bytes, more: Bytes)
    requires token != []
    ensures Scan(data + more, token) == Then(Scan(data, token), Scan(Scan(data, token).held + more, token))
    decreases |data|
  {
    var i := Find(data, token);
    if i == -1 {
      ScanAcrossRead(data, token, more);
    } else {
      var after := data[i + |token|..];
      ScanInPieces(after, token, more);
      FoundInPieces(data, token, more, i, Scan(after, token), Scan(Scan(after, token).held + more, token));
    }
  }

  /** Cutting a concatenation at or after its first part. */
  lemma CutAfter(front: Bytes, tail: Bytes, k: nat)
    requires k <= |tail|
    ensures (front + tail)[..|front| + k] == front + tail[..k]
    ensures (front + tail)[|front| + k..] == tail[k..]
  {
  }

  /** A scan that shares its rest with another one, behind some more output. */
  lemma ThenAfterFront(front: Bytes, tail: Scanned, k: nat)
    requires tail.fence == Some(k)
    ensures Then(Scanned(front, [], None), tail) == Scanned(front + tail.out, tail.held, Some(|front| + k))
  {
  }

  lemma NotFoundAfterFront(front: Bytes, tail: Bytes, token: Bytes)
    requires token != [] && Find(front + tail, token) == -1 && Find(tail, token) == -1
    requires Hold(front + tail, token) == Hold(tail, token)
    ensures Scan(front + tail, token) == Then(Scanned(front, [], None), Scan(tail, token))
  {
    ScanNotFound(tail, token);
    ScanNotFound(front + tail, token);
    CutAfter(front, tail, |tail| - Hold(tail, token));
  }

  lemma FoundAfterFront(front: Bytes, tail: Bytes, token: Bytes, j: nat)
    requires token != [] && Find(tail, token) == j && Find(front + tail, token) == |front| + j
    ensures Scan(front + tail, token) == Then(Scanned(front, [], None), Scan(tail, token))
  {
    var rest := Scan(tail[j + |token|..], token);
    ScanFound(tail, token, j);
    FoundBehindFront(front, tail, token, j);
    Regroup(front, tail[..j], rest.out);
    ThenAfterFront(front, Scan(tail, token), j);
  }

  lemma FoundBehindFront(front: Bytes, tail: Bytes, token: Bytes, j: nat)
    requires token != [] && j + |token| <= |tail| && Find(front + tail, token) == |front| + j
    ensures
      var rest := Scan(tail[j + |token|..], token);
      Scan(front + tail, token) == Scanned(front + tail[..j] + rest.out, rest.held, Some(|front| + j))
  {
    hide Scan, Find;
    var data, after := front + tail, tail[j + |token|..];
    CutAfter(front, tail, j);
    CutAfter(front, tail, j + |token|);
    ScanFrom(data, token, |front| + j, front + tail[..j], after, Scan(after, token));
  }

  lemma ScanAfterFront(front: Bytes, tail: Bytes, token: Bytes)
    requires token != []
    requires Find(front + tail, token) == if Find(tail, token) == -1 then -1 else |front| + Find(tail, token)
    requires Find(tail, token) == -1 ==> Hold(front + tail, token) == Hold(tail, token)
    ensures Scan(front + tail, token) == Then(Scanned(front, [], None), Scan(tail, token))
  {
    if Find(tail, token) == -1 {
      NotFoundAfterFront(front, tail, token);
    } else {
      FoundAfterFront(front, tail, token, Find(tail, token));
    }
  }

  lemma ScanAcrossRead(data: Bytes, token: Bytes, more: Bytes)
    requires token != [] && Find(data, token) == -1
    ensures Scan(data + more, token) == Then(Scan(data, token), Scan(Scan(data, token).held + more, token))
  {
    var kept := |data| - Hold(data, token);
    var front, tail := data[..kept], data[kept..] + more;
    assert Scan(data, token) == Scanned(front, data[kept..], None) by {
      ScanNotFound(data, token);
    }
    assert Scan(data + more, token) == Then(Scanned(front, [], None), Scan(tail, token)) by {
      Rejoin(data, kept, more);
      SearchAcrossRead(data, token, more);
      ScanAfterFront(front, tail, token);
    }
    ThenIgnoresHeld(front, data[kept..], Scan(tail, token));
  }

  lemma ThenIgnoresHeld(front: Bytes, held: Bytes, second: Scanned)
    ensures Then(Scanned(front, held, None), second) == Then(Scanned(front, [], None), second)
  {
  }

  /** Searching and holding back start over from the held-back tail. */
  lemma SearchAcrossRead(data: Bytes, token: Bytes, more: Bytes)
    requires token != [] && Find(data, token) == -1
    ensures
      var kept := |data| - Hold(data, token);
      var front, tail := data[..kept], data[kept..] + more;
      && Find(front + tail, token) == (if Find(tail, token) == -1 then -1 else |front| + Find(tail, token))
      && Hold(front + tail, token) == Hold(tail, token)
  {
    var kept := |data| - Hold(data, token);
    var front, tail := data[..kept], data[kept..] + more;
    assert data + more == front + tail by {
      Rejoin(data, kept, more);
    }
    assert Find(data + more, token) == if Find(tail, token) == -1 then -1 else |front| + Find(tail, token) by {
      FindAcrossReads(data, token, more);
    }
    assert Hold(data + more, token) == Hold(tail, token) by {
      HoldAcrossReads(data, token, more);
    }
  }

  lemma Rejoin(data: Bytes, kept: nat, more: Bytes)
    requires kept <= |data|
    ensures data + more == data[..kept] + (data[kept..] + more)
  {
  }

  /** Feeding chunk after chunk, starting from a held-back tail. */
  function ScanAll(held: Bytes, chunks: seq<Bytes>, token: Bytes): Scanned
    requires token != []
    decreases |chunks|
  {
    if chunks == [] then Scanned([], held, None)
    else
      var first := Scan(held + chunks[0], token);
      Then(first, ScanAll(first.held, chunks[1..], token))
  }

  /** Whatever the chunking, the pump emits, holds and fences what the whole stream determines. */
  lemma {:induction false} ChunkingIsInvisible(held: Bytes, chunks: seq<Bytes>, token: Bytes)
    requires token != [] && chunks != []
    ensures ScanAll(held, chunks, token) == Scan(held + Flat(chunks), token)
    decreases |chunks|
  {
    var first := Scan(held + chunks[0], token);
    if |chunks| == 1 {
      assert chunks[0] + Flat(chunks[1..]) == chunks[0];
      assert first.out + [] == first.out;
    } else {
      ChunkingIsInvisible(first.held, chunks[1..], token);
      ScanInPieces(held + chunks[0], token, Flat(chunks[1..]));
      assert held + (chunks[0] + Flat(chunks[1..])) == held + chunks[0] + Flat(chunks[1..]);
    }
  }

  /**
   * The fence of a drain: once the token has been read, in whatever pieces, everything
   * before it in the pipe was emitted when the drain was released, and nothing after it was.
   */
  lemma DrainShipsEverything(held: Bytes, chunks: seq<Bytes>, token: Bytes, before: Bytes, after: Bytes)
    requires token != [] && chunks != []
    requires held + Flat(chunks) == before + token + after
    requires Find(before + token, token) == |before|
    ensures
      var r := ScanAll(held, chunks, token);
      r.fence == Some(|before|) && |before| <= |r.out| && r.out[..|before|] == before
  {
    ChunkingIsInvisible(held, chunks, token);
    FindInPrefix(before + token, token, after);
    assert (before + token + after)[..|before|] == before;
  }

  class Pump {
    var watch: Option<Bytes>
    var buf: Bytes
    var seen: bool
    /** Everything emitted so far, and how much of it was emitted when the drain was released. */
    var emitted: Bytes
    ghost var fence: Option<nat>

    constructor ()
      ensures watch.None? && buf == [] && emitted == [] && !seen && fence.None?
    {
      watch, buf, seen, emitted, fence := None, [], false, [], None;
    }

    /** The start of a drain: watch for a token that is about to be written to the pipe. */
    method Watch(token: Bytes)
      requires token != []
      modifies this
      ensures watch == Some(token) && !seen && fence.None? && buf == old(buf) && emitted == old(emitted)
    {
      watch, seen, fence := Some(token), false, None;
    }

    method Unwatch()
      modifies this`watch
      ensures watch.None?
    {
      watch := None;
    }

    method Emit(data: Bytes)
      modifies this`emitted
      ensures emitted == old(emitted) + data
    {
      emitted := emitted + data;
    }

    /** Ships what cannot be the start of a token and keeps the rest. */
    method ShipTail(data: Bytes, token: Bytes)
      requires token != [] && Find(data, token) == -1 && buf == []
      modifies this`emitted, this`buf
      ensures emitted == old(emitted) + Scan(data, token).out && buf == Scan(data, token).held
    {
      var hold := HoldBack(data, token);
      HoldExactly(data, token, hold);
      assert data[|data| - 0..] == [] && data[..|data| - 0] == data;
      var ready := data;
      if hold > 0 {
        buf := data[|data| - hold..];
        ready := data[..|data| - hold];
      }
      Emit(ready);
    }

    /** Ships what precedes a token, drops the token and releases the drain. */
    method PassToken(data: Bytes, token: Bytes, i: nat) returns (rest: Bytes)
      requires token != [] && Find(data, token) == i
      requires seen <==> fence.Some?
      modifies this`emitted, this`seen, this`fence
      ensures seen && fence == if old(fence).Some? then old(fence) else Some(|old(emitted)| + i)
      ensures |rest| < |data| && Scan(rest, token).held == Scan(data, token).held
      ensures emitted + Scan(rest, token).out == old(emitted) + Scan(data, token).out
      ensures Scan(data, token).fence == Some(i)
    {
      rest := data[i + |token|..];
      ScanFound(data, token, i);
      Regroup(emitted, data[..i], Scan(rest, token).out);
      Emit(data[..i]);
      if !seen {
        fence := Some(|emitted|);
      }
      seen := true;
    }

    /** One read from the pipe. */
    method Feed(chunk: Bytes)
      requires watch.Some? ==> watch.value != []
      requires seen <==> fence.Some?
      modifies this
      ensures watch == old(watch) && (seen <==> fence.Some?)
      ensures watch.None? ==>
                emitted == old(emitted) + old(buf) + chunk && buf == [] && fence == old(fence)
      ensures watch.Some? ==>
                var r := Scan(old(buf) + chunk, watch.value);
                && emitted == old(emitted) + r.out && buf == r.held
                && fence == (if old(fence).Some? || r.fence.None? then old(fence)
                             else Some(|old(emitted)| + r.fence.value))
    {
      var data := buf + chunk;
      buf := [];
      if watch.None? {
        Emit(data);
        Regroup(old(emitted), old(buf), chunk);
        return;
      }
      FeedWatched(data, watch.value);
    }

    method FeedWatched(all: Bytes, token: Bytes)
      requires token != [] && buf == [] && (seen <==> fence.Some?)
      modifies this`emitted, this`buf, this`seen, this`fence
      ensures seen <==> fence.Some?
      ensures emitted == old(emitted) + Scan(all, token).out && buf == Scan(all, token).held
      ensures fence == if old(fence).Some? || Scan(all, token).fence.None? then old(fence)
                       else Some(|old(emitted)| + Scan(all, token).fence.value)
    {
      var data := all;
      ghost var cut := false;
      var i := Find(data, token);
      while i != -1
        invariant i == Find(data, token) && buf == [] && (seen <==> fence.Some?)
        invariant emitted + Scan(data, token).out == old(emitted) + Scan(all, token).out
        invariant Scan(data, token).held == Scan(all, token).held
        invariant !cut ==> data == all && emitted == old(emitted) && fence == old(fence)
        invariant cut ==> Scan(all, token).fence.Some?
        invariant cut ==> fence == if old(fence).Some? then old(fence)
                                   else Some(|old(emitted)| + Scan(all, token).fence.value)
        decreases |data|
      {
        data := PassToken(data, token, i);
        cut := true;
        i := Find(data, token);
      }
      ShipTail(data, token);
    }
  }

  /** The pump after a scan, starting from some output. */
  ghost predicate Fed(p: Pump, before: Bytes, r: Scanned)
    reads p
  {
    && p.emitted == before + r.out && p.buf == r.held
    && p.fence == if r.fence.None? then None else Some(|before| + r.fence.value)
  }

  lemma ThenAgain(a: Scanned, b: Scanned, c: Scanned)
    ensures Then(Then(a, b), c) == Then(a, Then(b, c))
  {
    Regroup(a.out, b.out, c.out);
  }

  lemma NothingFirst(held: Bytes, r: Scanned)
    ensures Then(Scanned([], held, None), r) == r
    ensures Then(r, Scanned([], r.held, None)) == r
  {
    assert [] + r.out == r.out && r.out + [] == r.out;
  }

  method FeedOn(p: Pump, ghost before: Bytes, ghost r: Scanned, chunk: Bytes)
    requires p.watch.Some? && p.watch.value != [] && (p.seen <==> p.fence.Some?) && Fed(p, before, r)
    modifies p
    ensures p.watch == old(p.watch) && (p.seen <==> p.fence.Some?)
    ensures Fed(p, before, Then(r, Scan(r.held + chunk, p.watch.value)))
  {
    ghost var next := Scan(r.held + chunk, p.watch.value);
    p.Feed(chunk);
    Regroup(before, r.out, next.out);
  }

  lemma FedAccounts(before: Bytes, stream: Bytes, token: Bytes)
    requires token != []
    ensures
      var r, i := Scan(stream, token), Find(stream, token);
      && before + r.out + r.held == before + Strip(stream, token)
      && r.fence == (if i == -1 then None else Some(i))
      && (i != -1 ==> before + stream[..i] <= before + r.out)
  {
    var r, i := Scan(stream, token), Find(stream, token);
    ScanLosesOnlyTokens(stream, token);
    Regroup(before, r.out, r.held);
    if i != -1 {
      ScanFound(stream, token, i);
      assert stream[..i] <= r.out;
    }
  }

  /** Reading on while a drain waits amounts to scanning all the pieces. */
  method FeedPieces(p: Pump, chunks: seq<Bytes>)
    requires p.watch.Some? && p.watch.value != [] && !p.seen && p.fence.None?
    modifies p
    ensures p.watch == old(p.watch) && (p.seen <==> p.fence.Some?)
    ensures Fed(p, old(p.emitted), ScanAll(old(p.buf), chunks, p.watch.value))
  {
    ghost var token, all := p.watch.value, ScanAll(p.buf, chunks, p.watch.value);
    ghost var r := Scanned([], p.buf, None);
    NothingFirst(p.buf, all);
    assert p.emitted + [] == p.emitted && chunks[0..] == chunks;
    for k := 0 to |chunks|
      invariant p.watch == Some(token) && (p.seen <==> p.fence.Some?) && Fed(p, old(p.emitted), r)
      invariant Then(r, ScanAll(r.held, chunks[k..], token)) == all
    {
      ghost var next := Scan(r.held + chunks[k], token);
      FeedOn(p, old(p.emitted), r, chunks[k]);
      assert chunks[k..][0] == chunks[k] && chunks[k..][1..] == chunks[k + 1..];
      ThenAgain(r, next, ScanAll(next.held, chunks[k + 1..], token));
      r := Then(r, next);
    }
    NothingFirst(r.held, r);
  }

  /**
   * Reading on while a drain waits, in any pieces: what is emitted and held back is the
   * stream without its tokens; the drain is released exactly if the token is in the
   * stream, and by then everything before it has been emitted and nothing after it.
   */
  method FeedAll(p: Pump, chunks: seq<Bytes>) returns (ghost pieces: seq<Bytes>)
    requires p.watch.Some? && p.watch.value != [] && !p.seen && p.fence.None?
    modifies p
    ensures p.watch == old(p.watch) && (p.seen <==> p.fence.Some?)
    ensures chunks == [] ==> p.emitted == old(p.emitted) && p.buf == old(p.buf) && !p.seen
    ensures chunks != [] ==>
              var token, stream := p.watch.value, old(p.buf) + Flat(chunks);
              var i := Find(stream, token);
              && p.emitted + p.buf == old(p.emitted) + Strip(stream, token)
              && (p.seen <==> i != -1)
              && (p.seen ==> p.fence == Some(|old(p.emitted)| + i) && old(p.emitted) + stream[..i] <= p.emitted)
    ensures chunks != [] ==> CutAtTokens(old(p.buf) + Flat(chunks), p.watch.value, pieces)
    ensures chunks != [] ==>
              var last := pieces[|pieces| - 1];
              && p.emitted + p.buf == old(p.emitted) + Flat(pieces)
              && EndsWith(last, p.buf) && LongestPartial(last, p.watch.value, |p.buf|)
              && p.fence == (if |pieces| == 1 then None else Some(|old(p.emitted)| + |pieces[0]|))
  {
    hide Scan, Strip, Find, Hold, CutAtTokens, LongestPartial, EndsWith;
    pieces := [];
    FeedPieces(p, chunks);
    if chunks != [] {
      ChunkingIsInvisible(old(p.buf), chunks, p.watch.value);
      FedAccounts(old(p.emitted), old(p.buf) + Flat(chunks), p.watch.value);
      pieces := ScanCutsAtTokens(old(p.buf) + Flat(chunks), p.watch.value);
      Regroup(old(p.emitted), Scan(old(p.buf) + Flat(chunks), p.watch.value).out, p.buf);
    }
  }

  // ---------------------------------------------------------------- drains that come and go

  /** A stretch of reads during which the pump watches for one token, or for none. */
  datatype Stretch = Stretch(watch: Option<Bytes>, chunks: seq<Bytes>)

  predicate RealTokens(stretches: seq<Stretch>) {
    forall s :: s in stretches ==> s.watch != Some([])
  }

  /** What one stretch makes of the bytes it starts with and those it reads. */
  function ScanStretch(held: Bytes, s: Stretch): Scanned
    requires s.watch != Some([])
  {
    if s.watch.Some? then ScanAll(held, s.chunks, s.watch.value)
    else if s.chunks == [] then Scanned([], held, None)
    else Scanned(held + Flat(s.chunks), [], None)
  }

  /** Everything emitted and still held back after some stretches, given what was held back before them. */
  function ShippedBy(held: Bytes, stretches: seq<Stretch>): Bytes
    requires RealTokens(stretches)
    decreases |stretches|
  {
    if stretches == [] then held
    else
      var r := ScanStretch(held, stretches[0]);
      r.out + ShippedBy(r.held, stretches[1..])
  }

  function ReadIn(stretches: seq<Stretch>): Bytes {
    if stretches == [] then [] else Flat(stretches[0].chunks) + ReadIn(stretches[1..])
  }

  predicate ReadsItsToken(held: Bytes, s: Stretch)
    requires s.watch != Some([])
  {
    s.watch.Some? && s.chunks != [] && Find(held + Flat(s.chunks), s.watch.value) != -1
  }

  /** No stretch reads up to the end of the token it watches for. */
  predicate NoTokenRead(held: Bytes, stretches: seq<Stretch>)
    requires RealTokens(stretches)
    decreases |stretches|
  {
    stretches == [] ||
    (!ReadsItsToken(held, stretches[0]) && NoTokenRead(ScanStretch(held, stretches[0]).held, stretches[1..]))
  }

  lemma {:induction false} StripIsShorter(data: Bytes, token: Bytes)
    requires token != []
    ensures |Strip(data, token)| <= |data| - if Find(data, token) == -1 then 0 else 1
    ensures Find(data, token) == -1 ==> Strip(data, token) == data
    decreases |data|
  {
    var i := Find(data, token);
    StripFound(data, token);
    if i != -1 {
      StripIsShorter(data[i + |token|..], token);
    }
  }

  /** A stretch keeps every byte, in order, exactly if it does not read the token it watches for. */
  lemma StretchAccounts(held: Bytes, s: Stretch)
    requires s.watch != Some([])
    ensures
      var r, read := ScanStretch(held, s), held + Flat(s.chunks);
      && r.out + r.held == (if s.watch.Some? && s.chunks != [] then Strip(read, s.watch.value) else read)
      && (if ReadsItsToken(held, s) then |r.out + r.held| < |read| else r.out + r.held == read)
  {
    var read := held + Flat(s.chunks);
    if s.watch.Some? && s.chunks != [] {
      ChunkingIsInvisible(held, s.chunks, s.watch.value);
      ScanLosesOnlyTokens(read, s.watch.value);
      StripIsShorter(read, s.watch.value);
    } else {
      assert held + [] == held && [] + held == held && read + [] == read;
    }
  }

  /**
   * Over drains that come and go, nothing is lost or reordered if and only if no token is read
   * while it is watched for.
   */
  lemma {:induction false} ScheduleLosesOnlyTokens(held: Bytes, stretches: seq<Stretch>)
    requires RealTokens(stretches)
    ensures if NoTokenRead(held, stretches) then ShippedBy(held, stretches) == held + ReadIn(stretches)
            else |ShippedBy(held, stretches)| < |held + ReadIn(stretches)|
    decreases |stretches|
  {
    if stretches == [] {
      assert held + [] == held;
    } else {
      var r, rest := ScanStretch(held, stretches[0]), stretches[1..];
      StretchAccounts(held, stretches[0]);
      ScheduleLosesOnlyTokens(r.held, rest);
      Regroup(held, Flat(stretches[0].chunks), ReadIn(rest));
      Regroup(r.out, r.held, ReadIn(rest));
    }
  }

  /**
   * A drain that is given up: its token, once in the stream, is cut out exactly if its last
   * byte was read before that; otherwise it reaches the host like any other bytes.
   */
  lemma TokenIsCutExactly(early: Bytes, late: Bytes, token: Bytes, before: Bytes, after: Bytes)
    requires token != [] && early + late == before + token + after
    requires Find(before + token, token) == |before| && Find(after, token) == -1
    ensures Strip(early, token) + late == (if |before| + |token| <= |early| then before + after else early + late)
    ensures Strip(early, token) + late == before + after <==> |before| + |token| <= |early|
  {
    if |before| + |token| <= |early| {
      var mid := early[|before| + |token|..];
      SplitEarly(early, late, before + token, after);
      FindInPrefix(mid, token, late);
      CutWhenRead(before, token, mid);
      Regroup(before, mid, late);
    } else {
      if Find(early, token) != -1 {
        FirstTokenIsWhole(early, late, token, before, after);
      }
      StripFound(early, token);
      assert |early + late| > |before + after|;
    }
  }

  lemma SplitEarly(early: Bytes, late: Bytes, front: Bytes, after: Bytes)
    requires early + late == front + after && |front| <= |early|
    ensures early == front + early[|front|..] && early[|front|..] + late == after
  {
    assert early[..|front|] == (early + late)[..|front|] == front;
    assert early[|front|..] + late == (early + late)[|front|..] == after;
  }

  lemma CutWhenRead(before: Bytes, token: Bytes, mid: Bytes)
    requires token != [] && Find(before + token, token) == |before| && Find(mid, token) == -1
    ensures Strip(before + token + mid, token) == before + mid
  {
    var early := before + token + mid;
    FindInPrefix(before + token, token, mid);
    assert early[..|before|] == before && early[|before| + |token|..] == mid;
    StripFound(early, token);
    StripFound(mid, token);
  }

  lemma FirstTokenIsWhole(early: Bytes, late: Bytes, token: Bytes, before: Bytes, after: Bytes)
    requires token != [] && early + late == before + token + after
    requires Find(before + token, token) == |before| && Find(early, token) != -1
    ensures |before| + |token| <= |early|
  {
    FindInPrefix(before + token, token, after);
    FindInPrefix(early, token, late);
  }

  /** The reads of one stretch. */
  method FeedStretch(p: Pump, s: Stretch)
    requires s.watch != Some([]) && (p.seen <==> p.fence.Some?)
    modifies p
    ensures p.watch == s.watch && (p.seen <==> p.fence.Some?)
    ensures
      var r := ScanStretch(old(p.buf), s);
      p.emitted == old(p.emitted) + r.out && p.buf == r.held
  {
    if s.watch.Some? {
      p.Watch(s.watch.value);
      FeedPieces(p, s.chunks);
    } else {
      p.Unwatch();
      FeedUnwatched(p, s.chunks);
    }
  }

  method FeedUnwatched(p: Pump, chunks: seq<Bytes>)
    requires p.watch.None? && (p.seen <==> p.fence.Some?)
    modifies p
    ensures p.watch.None? && (p.seen <==> p.fence.Some?)
    ensures
      var r := ScanStretch(old(p.buf), Stretch(None, chunks));
      p.emitted == old(p.emitted) + r.out && p.buf == r.held
  {
    assert chunks[..0] == [] && p.buf + [] == p.buf && p.emitted + [] == p.emitted;
    for k := 0 to |chunks|
      invariant p.watch.None? && (p.seen <==> p.fence.Some?)
      invariant p.emitted + p.buf == old(p.emitted) + (old(p.buf) + Flat(chunks[..k]))
      invariant if k == 0 then p.emitted == old(p.emitted) && p.buf == old(p.buf) else p.buf == []
    {
      ghost var before := old(p.buf) + Flat(chunks[..k]);
      p.Feed(chunks[k]);
      FlatAppend(chunks[..k], chunks[k]);
      assert chunks[..k + 1] == chunks[..k] + [chunks[k]];
      Regroup(old(p.buf), Flat(chunks[..k]), chunks[k]);
      Regroup(old(p.emitted), before, chunks[k]);
      assert p.emitted + [] == p.emitted;
    }
    assert chunks[..|chunks|] == chunks && p.emitted + [] == p.emitted;
  }

  /** Any schedule of drains that start, wait and are given up, and of reads, with any tokens. */
  method RunSchedule(p: Pump, stretches: seq<Stretch>)
    requires RealTokens(stretches) && (p.seen <==> p.fence.Some?)
    modifies p
    ensures p.seen <==> p.fence.Some?
    ensures p.emitted + p.buf == old(p.emitted) + ShippedBy(old(p.buf), stretches)
    decreases |stretches|
  {
    if stretches != [] {
      FeedStretch(p, stretches[0]);
      ghost var r := ScanStretch(old(p.buf), stretches[0]);
      RunSchedule(p, stretches[1..]);
      Regroup(old(p.emitted), r.out, ShippedBy(r.held, stretches[1..]));
    }
  }

  /**
   * A drain during which some chunks are read and that is then given up: what was read while it waited is
   * stripped of its token, and what is read later is not.
   */
  method FeedThenGiveUp(p: Pump, token: Bytes, first: seq<Bytes>, second: seq<Bytes>)
    requires token != [] && (p.seen <==> p.fence.Some?)
    modifies p
    ensures p.emitted + p.buf == old(p.emitted)
              + ((if first == [] then old(p.buf) else Strip(old(p.buf) + Flat(first), token)) + Flat(second))
  {
    var stretches := [Stretch(Some(token), first), Stretch(None, second)];
    hide Scan, ScanAll, Strip, Find;
    ghost var held, r := p.buf, ScanStretch(p.buf, Stretch(Some(token), first));
    RunSchedule(p, stretches);
    assert stretches[1..] == [Stretch(None, second)] && stretches[1..][1..] == [];
    StretchAccounts(held, stretches[0]);
    StretchAccounts(r.held, stretches[1]);
    assert ShippedBy(r.held, stretches[1..]) == r.held + Flat(second);
    Regroup(r.out, r.held, Flat(second));
  }

  /**
   * What is out when a drain is given up after some bytes: everything before its token, if and only
   * if that lies in these bytes without the tail that is held back.
   */
  lemma OutBeforeTokenExactly(early: Bytes, late: Bytes, token: Bytes, before: Bytes, after: Bytes)
    requires token != [] && early + late == before + token + after && Find(before + token, token) == |before|
    ensures before <= Scan(early, token).out <==> |before| <= |early| - |Scan(early, token).held|
  {
    hide Scan, Strip, Hold, Find;
    var i := Find(early, token);
    if i == -1 {
      ScanNotFound(early, token);
      if |before| <= |early| {
        assert early[..|before|] == (early + late)[..|before|] == before;
      }
    } else {
      FindInPrefix(early, token, late);
      FindInPrefix(before + token, token, after);
      var rest := early[i + |token|..];
      assert early[..i] == (early + late)[..i] == before;
      ScanFound(early, token, i);
      ScanLosesOnlyTokens(rest, token);
      StripIsShorter(rest, token);
    }
  }

  lemma PrefixBehind(front: Bytes, a: Bytes, b: Bytes)
    ensures front + a <= front + b <==> a <= b
  {
    if front + a <= front + b {
      assert b[..|a|] == (front + b)[|front|..|front| + |a|] == a;
    }
  }

  /** Bytes before the token are still to come exactly if they reach into the held-back tail or were not read yet. */
  method GiveUpDrain(p: Pump, token: Bytes, chunks: seq<Bytes>, ghost late: Bytes, ghost before: Bytes,
                     ghost after: Bytes)
    requires token != [] && (p.seen <==> p.fence.Some?)
    requires p.buf + Flat(chunks) + late == before + token + after && Find(before + token, token) == |before|
    modifies p
    ensures p.watch.None?
    ensures old(p.emitted) + before <= p.emitted <==> |before| <= |old(p.buf) + Flat(chunks)| - |p.buf|
  {
    ghost var early := p.buf + Flat(chunks);
    FeedStretch(p, Stretch(Some(token), chunks));
    p.Unwatch();
    if chunks != [] {
      ChunkingIsInvisible(old(p.buf), chunks, token);
      OutBeforeTokenExactly(early, late, token, before, after);
    }
    ghost var out := ScanStretch(old(p.buf), Stretch(Some(token), chunks)).out;
    PrefixBehind(old(p.emitted), before, out);
  }

  /** A drain given up before its token is read ships the token to the host. */
  method GivenUpDrainShipsItsToken(token: Bytes) returns (p: Pump)
    requires token != []
    ensures fresh(p) && p.emitted + p.buf == token && Strip(token, token) == []
  {
    p := new Pump();
    p.Watch(token);
    p.Unwatch();
    p.Feed(token);
    FindExactly(token, token, 0);
    FindExactly([], token, -1);
    assert token[0..|token|] == token && token[|token|..] == [] && token[..0] == [];
    StripFound(token, token);
    StripFound([], token);
  }
}
