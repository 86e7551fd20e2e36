/** The bounded tail of a server's standard error: its last bytes, cut to whole last lines. */
module StderrTail {
  import opened Scanning
  import opened BoundedOutput
  import opened Sequences

  const BYTE_LIMIT: nat := 8 * 1024
  const LINE_LIMIT: nat := 40
  const LF: byte := 10
  const CR: byte := 13

  /** Whether a line ends between two neighbouring bytes; CR LF is one line end. */
  predicate Break(c: byte, d: byte) {
    c == LF || (c == CR && d != LF)
  }

  /** The length of the first line, with its line end. */
  function FirstLine(s: Bytes): (n: nat)
    requires s != []
    ensures 0 < n <= |s|
  {
    if |s| == 1 || Break(s[0], s[1]) then 1 else 1 + FirstLine(s[1..])
  }

  /** A line ends behind a line feed, and behind a carriage return that no line feed follows, and nowhere earlier. */
  lemma {:induction false} FirstLineExactly(s: Bytes)
    requires s != []
    ensures
      var n := FirstLine(s);
      && (n < |s| ==> s[n - 1] == 10 || (s[n - 1] == 13 && s[n] != 10))
      && (forall k :: 0 <= k < n - 1 ==> s[k] != 10 && (s[k] == 13 ==> s[k + 1] == 10))
    decreases |s|
  {
    if |s| > 1 && !Break(s[0], s[1]) {
      FirstLineExactly(s[1..]);
      forall k | 0 <= k < FirstLine(s) - 1
        ensures s[k] != 10 && (s[k] == 13 ==> s[k + 1] == 10)
      {
        assert k > 0 ==> s[k] == s[1..][k - 1];
      }
    }
  }

  /** splitlines(keepends=True) on bytes. */
  function Lines(s: Bytes): seq<Bytes>
    decreases |s|
  {
    if s == [] then [] else [s[..FirstLine(s)]] + Lines(s[FirstLine(s)..])
  }

  predicate Fits(s: Bytes) {
    |s| <= BYTE_LIMIT && |Lines(s)| <= LINE_LIMIT
  }

  /** The specification: drop bytes from the front until the rest fits. */
  function Tail(s: Bytes): Bytes
    decreases |s|
  {
    if Fits(s) || s == [] then s else Tail(s[1..])
  }

  // ---------------------------------------------------------------- counting lines

  /** How many lines end inside a text, before its last byte. */
  function Breaks(s: Bytes): nat {
    if |s| <= 1 then 0 else (if Break(s[0], s[1]) then 1 else 0) + Breaks(s[1..])
  }

  lemma {:induction false} FirstLineHasNoBreak(s: Bytes)
    requires s != []
    ensures Breaks(s) == if FirstLine(s) == |s| then 0 else 1 + Breaks(s[FirstLine(s)..])
    decreases |s|
  {
    if |s| > 1 && !Break(s[0], s[1]) {
      FirstLineHasNoBreak(s[1..]);
      assert s[1..][FirstLine(s[1..])..] == s[FirstLine(s)..];
    }
  }

  lemma {:induction false} LinesAreBreaks(s: Bytes)
    ensures |Lines(s)| == if s == [] then 0 else 1 + Breaks(s)
    decreases |s|
  {
    if s != [] {
      FirstLineHasNoBreak(s);
      LinesAreBreaks(s[FirstLine(s)..]);
    }
  }

  lemma {:induction false} BreaksOfPrefix(s: Bytes, more: Bytes)
    ensures Breaks(s) <= Breaks(s + more)
    decreases |s|
  {
    if |s| > 1 {
      BreaksOfPrefix(s[1..], more);
      assert (s + more)[1..] == s[1..] + more;
    }
  }

  /** What fits still fits after removing bytes at its end. */
  lemma FitsPrefix(s: Bytes, more: Bytes)
    requires Fits(s + more)
    ensures Fits(s)
  {
    LinesAreBreaks(s);
    LinesAreBreaks(s + more);
    BreaksOfPrefix(s, more);
  }

  // ---------------------------------------------------------------- the tail

  /** The tail is a suffix that fits, and every longer suffix does not. */
  lemma {:induction false} TailIsLongest(s: Bytes)
    ensures |Tail(s)| <= |s| && Tail(s) == s[|s| - |Tail(s)|..] && Fits(Tail(s))
    ensures forall i :: 0 <= i < |s| - |Tail(s)| ==> !Fits(s[i..])
    decreases |s|
  {
    if Fits(s) || s == [] {
    } else {
      var r := s[1..];
      TailIsLongest(r);
      assert r[|r| - |Tail(r)|..] == s[|s| - |Tail(r)|..];
      forall i | 0 <= i < |s| - |Tail(s)|
        ensures !Fits(s[i..])
      {
        if i == 0 {
          assert s[0..] == s;
        } else {
          assert s[i..] == r[i - 1..];
        }
      }
    }
  }

  /** Forgetting early what will be forgotten anyway changes nothing. */
  lemma {:induction false} TailInPieces(s: Bytes, more: Bytes)
    ensures Tail(Tail(s) + more) == Tail(s + more)
    decreases |s|
  {
    if !Fits(s) && s != [] {
      if Fits(s + more) {
        FitsPrefix(s, more);
      }
      TailInPieces(s[1..], more);
      assert (s + more)[1..] == s[1..] + more;
    }
  }

  /** Suffixes that do not fit can be skipped. */
  lemma {:induction false} TailSkips(s: Bytes, k: nat)
    requires k <= |s| && forall i :: 0 <= i < k ==> !Fits(s[i..])
    ensures Tail(s) == Tail(s[k..])
    decreases k
  {
    if k > 0 {
      assert s[0..] == s;
      forall i | 0 <= i < k - 1
        ensures !Fits(s[1..][i..])
      {
        assert s[1..][i..] == s[i + 1..];
      }
      TailSkips(s[1..], k - 1);
      assert s[1..][k - 1..] == s[k..];
    } else {
      assert s[0..] == s;
    }
  }

  lemma TailOfLastBytes(s: Bytes)
    requires |s| > BYTE_LIMIT
    ensures Tail(s) == Tail(s[|s| - BYTE_LIMIT..])
  {
    hide Tail, Lines;
    var k := |s| - BYTE_LIMIT;
    forall i | 0 <= i < k
      ensures !Fits(s[i..])
    {
      assert |s[i..]| > BYTE_LIMIT;
    }
    TailSkips(s, k);
  }

  lemma {:induction false} FirstLineOfSuffix(s: Bytes, i: nat)
    requires s != [] && i < FirstLine(s)
    ensures FirstLine(s[i..]) == FirstLine(s) - i
    decreases i
  {
    if i == 0 {
      assert s[0..] == s;
    } else {
      FirstLineOfSuffix(s[1..], i - 1);
      assert s[1..][i - 1..] == s[i..];
    }
  }

  /** Inside the first line every suffix has the same later lines. */
  lemma SuffixOfFirstLine(s: Bytes, i: nat)
    requires s != [] && i < FirstLine(s)
    ensures |Lines(s[i..])| == 1 + |Lines(s[FirstLine(s)..])|
  {
    FirstLineOfSuffix(s, i);
    assert s[i..][FirstLine(s) - i..] == s[FirstLine(s)..];
  }

  /** The last lines of a text that is short enough are its tail. */
  lemma {:induction false} TailOfLastLines(s: Bytes)
    requires |s| <= BYTE_LIMIT && |Lines(s)| > LINE_LIMIT
    ensures Tail(s) == Flat(Lines(s)[|Lines(s)| - LINE_LIMIT..])
    decreases |s|
  {
    var n := FirstLine(s);
    var rest := s[n..];
    forall i | 0 <= i < n
      ensures !Fits(s[i..])
    {
      SuffixOfFirstLine(s, i);
    }
    TailSkips(s, n);
    assert Lines(s)[1..] == Lines(rest);
    if |Lines(rest)| > LINE_LIMIT {
      TailOfLastLines(rest);
      assert Lines(s)[|Lines(s)| - LINE_LIMIT..] == Lines(rest)[|Lines(rest)| - LINE_LIMIT..];
    } else {
      FlatLines(rest);
    }
  }

  lemma {:induction false} FlatLines(s: Bytes)
    ensures Flat(Lines(s)) == s
    decreases |s|
  {
    if s != [] {
      FlatLines(s[FirstLine(s)..]);
      assert Lines(s)[1..] == Lines(s[FirstLine(s)..]);
    }
  }

  /** The two cuts of a read: first by bytes, then by lines. */
  method Trimmed(read: Bytes) returns (kept: Bytes)
    ensures kept == Tail(read)
  {
    kept := read;
    if |kept| > BYTE_LIMIT {
      TailOfLastBytes(kept);
      kept := kept[|kept| - BYTE_LIMIT..];
    }
    var lines := Lines(kept);
    if |lines| > LINE_LIMIT {
      TailOfLastLines(kept);
      kept := Join(lines[|lines| - LINE_LIMIT..]);
    }
  }

  class StderrReader {
    var buffer: Bytes
    var capture: bool
    /** Everything read while capturing. */
    ghost var captured: Bytes

    ghost predicate Valid()
      reads this
    {
      buffer == if capture then Tail(captured) else []
    }

    constructor ()
      ensures Valid() && capture && captured == []
    {
      buffer, capture, captured := [], true, [];
    }

    /** One read from the pipe. */
    method Drain(chunk: Bytes)
      requires Valid()
      modifies this
      ensures Valid() && capture == old(capture)
      ensures captured == if capture then old(captured) + chunk else old(captured)
    {
      if !capture {
        return;
      }
      TailInPieces(captured, chunk);
      captured := captured + chunk;
      buffer := buffer + chunk;
      buffer := Trimmed(buffer);
    }

    method StopCapture()
      requires Valid()
      modifies this
      ensures Valid() && !capture && buffer == []
    {
      capture := false;
      buffer := [];
    }
  }

  /** Whatever the reads, the buffer is the longest fitting suffix of all that was read. */
  method DrainAll(chunks: seq<Bytes>) returns (r: StderrReader)
    ensures fresh(r) && r.Valid() && r.capture && r.captured == Flat(chunks) && r.buffer == Tail(Flat(chunks))
  {
    r := new StderrReader();
    for k := 0 to |chunks|
      invariant fresh(r) && r.Valid() && r.capture && r.captured == Flat(chunks[..k])
    {
      FlatAppend(chunks[..k], chunks[k]);
      assert chunks[..k + 1] == chunks[..k] + [chunks[k]];
      r.Drain(chunks[k]);
    }
    assert chunks[..|chunks|] == chunks;
  }
}
