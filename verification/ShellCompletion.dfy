/**
 * The completion marker of a foreground shell command: it is cut out of the output stream,
 * and the text in front of it is the command's result.
 */
module ShellCompletion {
  import opened Wrappers
  import opened Scanning
  import opened BoundedOutput
  import opened Sequences

  /** How far a command's output stream has come. */
  datatype Phase =
    | Open                       // no marker yet, still looking
    | Completed(at: nat)         // the marker was found there
    | Abandoned                  // no marker will come

  /** The stream with the one marker at position i cut out. */
  function Without(stream: Bytes, marker: Bytes, i: nat): Bytes
    requires i + |marker| <= |stream|
  {
    stream[..i] + stream[i + |marker|..]
  }

  /** Held-back bytes, completion text and shipped bytes are functions of the stream and the phase. */
  predicate Accounted(marker: Bytes, stream: Bytes, phase: Phase, pending: Bytes, completion: Option<Text>,
                      shipped: Bytes)
    requires marker != []
  {
    match phase
    case Open =>
      && Find(stream, marker) == -1 && completion.None?
      && pending == stream[|stream| - Hold(stream, marker)..]
      && shipped == stream[..|stream| - Hold(stream, marker)]
    case Completed(i) =>
      && Find(stream, marker) == i && pending == []
      && completion == Some(TextOf(stream[..i]))
      && shipped == Without(stream, marker, i)
    case Abandoned =>
      pending == [] && completion.None? && shipped == stream
  }

  /** What the account says of each phase. */
  lemma AccountTells(marker: Bytes, stream: Bytes, phase: Phase, pending: Bytes, completion: Option<Text>,
                     shipped: Bytes)
    requires marker != [] && Accounted(marker, stream, phase, pending, completion, shipped)
    ensures phase.Open? ==> shipped + pending == stream && completion.None?
    ensures phase.Open? ==> FirstAt(stream, marker, -1) && LongestPartial(stream, marker, |pending|)
    ensures phase.Completed? ==>
              && FirstAt(stream, marker, phase.at) && completion == Some(TextOf(stream[..phase.at]))
              && shipped == stream[..phase.at] + stream[phase.at + |marker|..] && pending == []
  {
    hide FirstAt, LongestPartial, TextOf, Find, Hold;
    FindExactly(stream, marker, Find(stream, marker));
    HoldExactly(stream, marker, Hold(stream, marker));
  }

  lemma CutThenAppend(stream: Bytes, marker: Bytes, i: nat, chunk: Bytes)
    requires i + |marker| <= |stream|
    ensures Without(stream + chunk, marker, i) == Without(stream, marker, i) + chunk
    ensures (stream + chunk)[..i] == stream[..i]
  {
  }

  lemma FindCut(front: Bytes, data: Bytes, marker: Bytes, at: nat)
    requires at + |marker| <= |data|
    ensures (front + data)[..|front| + at] == front + data[..at]
    ensures Without(front + data, marker, |front| + at) == front + data[..at] + data[at + |marker|..]
  {
  }

  lemma SplitTail(front: Bytes, data: Bytes, retained: nat)
    requires retained <= |data|
    ensures (front + data)[|front + data| - retained..] == data[|data| - retained..]
    ensures (front + data)[..|front + data| - retained] == front + data[..|data| - retained]
  {
  }

  /** Once the marker is dealt with, new bytes only extend the output. */
  lemma LaterBytes(marker: Bytes, stream: Bytes, phase: Phase, completion: Option<Text>, shipped: Bytes, chunk: Bytes)
    requires marker != [] && !phase.Open? && Accounted(marker, stream, phase, [], completion, shipped)
    ensures Accounted(marker, stream + chunk, phase, [], completion, shipped + chunk)
  {
    if phase.Completed? {
      FindInPrefix(stream, marker, chunk);
      CutThenAppend(stream, marker, phase.at, chunk);
    }
  }

  lemma OpenReadShape(marker: Bytes, stream: Bytes, pending: Bytes, shipped: Bytes, chunk: Bytes)
    requires marker != [] && Accounted(marker, stream, Open, pending, None, shipped)
    ensures
      var data := pending + chunk;
      var at := Find(data, marker);
      && stream + chunk == shipped + data
      && Find(shipped + data, marker) == (if at == -1 then -1 else |shipped| + at)
      && Hold(shipped + data, marker) == Hold(data, marker)
  {
    FindAcrossReads(stream, marker, chunk);
    HoldAcrossReads(stream, marker, chunk);
    assert stream + chunk == shipped + (pending + chunk);
  }

  /** What a read does to an open stream depends only on the held-back bytes and the new ones. */
  lemma OpenRead(marker: Bytes, stream: Bytes, pending: Bytes, shipped: Bytes, chunk: Bytes)
    requires marker != [] && Accounted(marker, stream, Open, pending, None, shipped)
    ensures
      var data := pending + chunk;
      var at := Find(data, marker);
      && Find(stream + chunk, marker) == (if at == -1 then -1 else |shipped| + at)
      && if at == -1 then
           Accounted(marker, stream + chunk, Open, data[|data| - Hold(data, marker)..], None,
                     shipped + data[..|data| - Hold(data, marker)])
         else
           Accounted(marker, stream + chunk, Completed(|shipped| + at), [], Some(TextOf(shipped + data[..at])),
                     shipped + data[..at] + data[at + |marker|..])
  {
    OpenReadShape(marker, stream, pending, shipped, chunk);
    var data := pending + chunk;
    if Find(data, marker) == -1 {
      StillOpen(marker, stream + chunk, shipped, data);
    } else {
      NowComplete(marker, stream + chunk, shipped, data, Find(data, marker));
    }
  }

  lemma StillOpen(marker: Bytes, stream: Bytes, shipped: Bytes, data: Bytes)
    requires marker != [] && stream == shipped + data && Find(stream, marker) == -1
    requires Hold(stream, marker) == Hold(data, marker)
    ensures Accounted(marker, stream, Open, data[|data| - Hold(data, marker)..], None,
                      shipped + data[..|data| - Hold(data, marker)])
  {
    SplitTail(shipped, data, Hold(data, marker));
  }

  lemma NowComplete(marker: Bytes, stream: Bytes, shipped: Bytes, data: Bytes, at: nat)
    requires marker != [] && stream == shipped + data && at + |marker| <= |data|
    requires Find(stream, marker) == |shipped| + at
    ensures Accounted(marker, stream, Completed(|shipped| + at), [], Some(TextOf(shipped + data[..at])),
                      shipped + data[..at] + data[at + |marker|..])
  {
    FindCut(shipped, data, marker, at);
  }

  class CommandOutput {
    const marker: Bytes
    const buffer: BoundedBuffer
    var pending: Bytes
    var terminal: bool
    var completion: Option<Text>
    /** Everything read from the command so far, and what became of the marker. */
    ghost var stream: Bytes
    ghost var phase: Phase

    ghost predicate Valid()
      reads this, buffer
    {
      && marker != [] && buffer.Valid() && terminal == !phase.Open?
      && Accounted(marker, stream, phase, pending, completion, buffer.all)
    }

    constructor (marker: Bytes)
      requires marker != []
      ensures Valid() && this.marker == marker && stream == [] && phase.Open? && fresh(buffer)
    {
      this.marker := marker;
      buffer := new BoundedBuffer();
      pending, terminal, completion, stream, phase := [], false, None, [], Open;
      new;
      FindExactly([], marker, -1);
    }

    /** The marker was read: freeze the text in front of it, then ship what follows it. */
    method Complete(data: Bytes, at: nat)
      requires buffer.Valid() && at + |marker| <= |data|
      modifies this`pending, this`completion, this`terminal, buffer
      ensures buffer.Valid() && buffer.all == old(buffer.all) + data[..at] + data[at + |marker|..]
      ensures pending == [] && terminal && completion == Some(TextOf(old(buffer.all) + data[..at]))
    {
      buffer.Write(data[..at]);
      pending := [];
      var text := buffer.Text();
      completion := Some(text);
      terminal := true;
      buffer.Write(data[at + |marker|..]);
    }

    /** No marker yet: ship everything that cannot be the start of one. */
    method Retain(data: Bytes)
      requires buffer.Valid() && marker != []
      modifies this`pending, buffer
      ensures buffer.Valid() && buffer.all == old(buffer.all) + data[..|data| - Hold(data, marker)]
      ensures pending == data[|data| - Hold(data, marker)..]
    {
      var retained := HoldBack(data, marker);
      HoldExactly(data, marker, retained);
      buffer.Write(data[..|data| - retained]);
      pending := data[|data| - retained..];
    }

    method ConsumeMarker(ghost after: Bytes, data: Bytes, at: nat)
      requires buffer.Valid() && marker != [] && at + |marker| <= |data|
      requires Accounted(marker, after, Completed(|buffer.all| + at), [], Some(TextOf(buffer.all + data[..at])),
                         buffer.all + data[..at] + data[at + |marker|..])
      modifies this, buffer
      ensures Valid() && stream == after && phase == Completed(old(|buffer.all|) + at)
    {
      stream, phase := after, Completed(|buffer.all| + at);
      Complete(data, at);
    }

    method ConsumePlain(ghost after: Bytes, data: Bytes)
      requires buffer.Valid() && marker != [] && !terminal && phase.Open? && completion.None?
      requires Accounted(marker, after, Open, data[|data| - Hold(data, marker)..], None,
                         buffer.all + data[..|data| - Hold(data, marker)])
      modifies this, buffer
      ensures Valid() && stream == after && phase == Open
    {
      stream := after;
      Retain(data);
    }

    method ConsumeOpen(chunk: Bytes)
      requires Valid() && !terminal
      modifies this, buffer
      ensures Valid() && stream == old(stream) + chunk
      ensures phase == PhaseOf(stream, marker)
    {
      OpenRead(marker, stream, pending, buffer.all, chunk);
      var data := pending + chunk;
      var at := Find(data, marker);
      if at >= 0 {
        ConsumeMarker(stream + chunk, data, at);
      } else {
        ConsumePlain(stream + chunk, data);
      }
    }

    method Consume(chunk: Bytes)
      requires Valid()
      modifies this, buffer
      ensures Valid() && stream == old(stream) + chunk
      ensures phase == if !old(phase).Open? then old(phase) else PhaseOf(stream, marker)
      ensures phase.Open? ==> buffer.all + pending == stream && completion.None?
      ensures phase.Open? ==> FirstAt(stream, marker, -1) && LongestPartial(stream, marker, |pending|)
      ensures phase.Completed? ==>
                && FirstAt(stream, marker, phase.at) && completion == Some(TextOf(stream[..phase.at]))
                && buffer.all == stream[..phase.at] + stream[phase.at + |marker|..] && pending == []
    {
      hide Accounted, FirstAt, LongestPartial, PhaseOf, TextOf;
      if terminal {
        ConsumeLater(chunk);
      } else {
        ConsumeOpen(chunk);
      }
      AccountTells(marker, stream, phase, pending, completion, buffer.all);
    }

    method ConsumeLater(chunk: Bytes)
      requires Valid() && terminal
      modifies this, buffer
      ensures Valid() && stream == old(stream) + chunk && phase == old(phase)
    {
      LaterBytes(marker, stream, phase, completion, buffer.all, chunk);
      buffer.Write(chunk);
      stream := stream + chunk;
    }

    /** Gives up on the marker: whatever was held back is output after all. */
    method Abandon()
      requires Valid()
      modifies this, buffer
      ensures Valid() && stream == old(stream)
      ensures phase == if old(phase).Open? then Abandoned else old(phase)
      ensures completion == old(completion) && buffer.all == old(buffer.all) + old(pending) && pending == []
    {
      if terminal {
        return;
      }
      buffer.Write(pending);
      pending := [];
      terminal := true;
      phase := Abandoned;
    }
  }

  function PhaseOf(stream: Bytes, marker: Bytes): Phase
    requires marker != []
  {
    if Find(stream, marker) == -1 then Open else Completed(Find(stream, marker))
  }

  /** Only a stream without a marker can change its phase. */
  lemma PhaseStays(stream: Bytes, marker: Bytes, chunk: Bytes)
    requires marker != []
    ensures !PhaseOf(stream, marker).Open? ==> PhaseOf(stream + chunk, marker) == PhaseOf(stream, marker)
  {
    FindInPrefix(stream, marker, chunk);
  }

  /** Reads the whole output, cut into pieces in any way, up to its end. */
  method ReadToEnd(out: CommandOutput, chunks: seq<Bytes>)
    requires out.Valid() && out.stream == [] && out.phase.Open?
    modifies out, out.buffer
    ensures out.Valid() && out.terminal && out.stream == Flat(chunks) && out.pending == []
    ensures
      var i := Find(out.stream, out.marker);
      if i == -1 then out.completion.None? && out.buffer.all == out.stream
      else out.completion == Some(TextOf(out.stream[..i]))
           && out.buffer.all == out.stream[..i] + out.stream[i + |out.marker|..]
  {
    ReadAll(out, chunks);
    out.Abandon();
  }

  /** Everything but the end of the stream: the phase is where the first marker puts it. */
  method ReadAll(out: CommandOutput, chunks: seq<Bytes>)
    requires out.Valid() && out.stream == [] && out.phase.Open?
    modifies out, out.buffer
    ensures out.Valid() && out.stream == Flat(chunks) && out.phase == PhaseOf(out.stream, out.marker)
  {
    assert chunks[..0] == [];
    for k := 0 to |chunks|
      invariant out.Valid() && out.stream == Flat(chunks[..k]) && out.phase == PhaseOf(out.stream, out.marker)
    {
      FlatAppend(chunks[..k], chunks[k]);
      assert chunks[..k + 1] == chunks[..k] + [chunks[k]];
      PhaseStays(out.stream, out.marker, chunks[k]);
      out.Consume(chunks[k]);
    }
    assert chunks[..|chunks|] == chunks;
  }
}
