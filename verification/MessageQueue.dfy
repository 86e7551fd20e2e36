/** Messages waiting to be injected into an agent run, in batches that are never split. */
module MessageQueue {
  import opened AgentEvents
  import opened Sequences

  type Batch = b: seq<Message> | b != [] witness [User("")]

  datatype QueueMode = All | OneAtATime

  /** What a drain takes. */
  function Taken(batches: seq<Batch>, mode: QueueMode): seq<Batch> {
    if mode == All || batches == [] then batches else batches[..1]
  }

  function Left(batches: seq<Batch>, mode: QueueMode): seq<Batch> {
    batches[|Taken(batches, mode)|..]
  }

  /** The batches that hold no message to be removed, or those that do. */
  function Selected(batches: seq<Batch>, remove: Message -> bool, matching: bool): seq<Batch> {
    if batches == [] then []
    else
      var last := batches[|batches| - 1];
      Selected(batches[..|batches| - 1], remove, matching) + if Matches(last, remove) == matching then [last] else []
  }

  predicate Matches(batch: Batch, remove: Message -> bool) {
    exists m :: m in batch && remove(m)
  }

  class PendingMessageQueue {
    var batches: seq<Batch>
    var mode: QueueMode
    /** Every batch ever drained. */
    ghost var drained: seq<Batch>

    constructor (mode: QueueMode)
      ensures batches == [] && this.mode == mode && drained == []
    {
      batches, this.mode, drained := [], mode, [];
    }

    method Enqueue(messages: seq<Message>)
      modifies this`batches
      ensures batches == if messages == [] then old(batches) else old(batches) + [messages]
    {
      if |messages| > 0 {
        batches := batches + [messages];
      }
    }

    method HasItems() returns (any: bool)
      ensures any <==> Flat(batches) != []
    {
      any := |batches| > 0;
    }

    /** Takes whole batches from the front: all of them, or the first. */
    method Drain() returns (messages: seq<Message>)
      modifies this`batches, this`drained
      ensures messages == Flat(Taken(old(batches), mode)) && batches == Left(old(batches), mode)
      ensures drained == old(drained) + Taken(old(batches), mode)
      ensures messages == [] <==> old(batches) == []
      ensures old(batches) != [] && mode == OneAtATime ==>
                messages == old(batches)[0] && batches == old(batches)[1..] && drained == old(drained) + [messages]
      ensures mode == All ==> messages == Flat(old(batches)) && batches == [] && drained == old(drained) + old(batches)
    {
      drained := drained + Taken(batches, mode);
      if mode == All {
        messages := Flat(batches);
        batches := [];
      } else if |batches| == 0 {
        messages := [];
      } else {
        messages := batches[0];
        assert batches[..1] == [batches[0]] && Flat(batches[..1]) == batches[0] + Flat<Message>([]);
        batches := batches[1..];
      }
    }

    method Clear()
      modifies this`batches
      ensures batches == []
    {
      batches := [];
    }

    /** Withdraws every batch that holds a matching message, whole. */
    method RemoveWhere(remove: Message -> bool) returns (removed: seq<Message>)
      modifies this`batches
      ensures removed == Flat(Selected(old(batches), remove, true)) && batches == Selected(old(batches), remove, false)
    {
      removed := [];
      var retained: seq<Batch> := [];
      for i := 0 to |batches|
        invariant batches == old(batches)
        invariant removed == Flat(Selected(batches[..i], remove, true))
        invariant retained == Selected(batches[..i], remove, false)
      {
        SelectedOneMore(batches, remove, i);
        var some := AnyMatches(batches[i], remove);
        if some {
          removed := removed + batches[i];
        } else {
          retained := retained + [batches[i]];
        }
      }
      assert batches[..|batches|] == batches;
      batches := retained;
    }

    static method AnyMatches(batch: Batch, remove: Message -> bool) returns (some: bool)
      ensures some == Matches(batch, remove)
    {
      some := false;
      for i := 0 to |batch|
        invariant some <==> exists m :: m in batch[..i] && remove(m)
      {
        if remove(batch[i]) {
          some := true;
        }
      }
      assert batch[..|batch|] == batch;
    }
  }

  lemma SelectedOneMore(batches: seq<Batch>, remove: Message -> bool, i: nat)
    requires i < |batches|
    ensures Selected(batches[..i + 1], remove, false) ==
              Selected(batches[..i], remove, false) + if Matches(batches[i], remove) then [] else [batches[i]]
    ensures Flat(Selected(batches[..i + 1], remove, true)) ==
              Flat(Selected(batches[..i], remove, true)) + if Matches(batches[i], remove) then batches[i] else []
  {
    assert batches[..i + 1][..i] == batches[..i];
    var gone := Selected(batches[..i], remove, true);
    FlatAppend(gone, batches[i]);
    if Matches(batches[i], remove) {
      assert Selected(batches[..i + 1], remove, true) == gone + [batches[i]];
    } else {
      assert Selected(batches[..i + 1], remove, true) == gone;
    }
  }

  // ---------------------------------------------------------------- withdrawing

  lemma CountsGrow(gone: seq<Batch>, kept: seq<Batch>, front: seq<Batch>, last: Batch)
    requires multiset(gone) + multiset(kept) == multiset(front)
    ensures multiset(gone + [last]) + multiset(kept) == multiset(front + [last])
    ensures multiset(gone) + multiset(kept + [last]) == multiset(front + [last])
  {
  }

  /** Withdrawing splits the queue: every batch goes to exactly one side. */
  lemma {:induction false} WithdrawingSplits(batches: seq<Batch>, remove: Message -> bool)
    ensures multiset(Selected(batches, remove, true)) + multiset(Selected(batches, remove, false)) == multiset(batches)
  {
    if batches == [] {
    } else {
      var front, last := batches[..|batches| - 1], batches[|batches| - 1];
      WithdrawingSplits(front, remove);
      var gone, kept := Selected(front, remove, true), Selected(front, remove, false);
      CountsGrow(gone, kept, front, last);
      assert batches == front + [last];
    }
  }

  /** The withdrawn batches are those with a matching message. */
  lemma {:induction false} WithdrawingMatches(batches: seq<Batch>, remove: Message -> bool, matching: bool)
    ensures forall b :: b in Selected(batches, remove, matching) ==> Matches(b, remove) == matching
  {
    if batches == [] {
    } else {
      WithdrawingMatches(batches[..|batches| - 1], remove, matching);
    }
  }

  // ---------------------------------------------------------------- a queue's whole life

  datatype QueueStep =
    | Enqueued(messages: seq<Message>)
    | Drained(mode: QueueMode)
    | Removed(remove: Message -> bool)
    | Cleared

  datatype History = History(batches: seq<Batch>, drained: seq<Batch>, withdrawn: seq<Batch>, enqueued: seq<Batch>)

  function Live(h: History, step: QueueStep): History {
    match step
    case Enqueued(messages) =>
      if messages == [] then h else h.(batches := h.batches + [messages], enqueued := h.enqueued + [messages])
    case Drained(mode) => h.(batches := Left(h.batches, mode), drained := h.drained + Taken(h.batches, mode))
    case Removed(remove) =>
      h.(batches := Selected(h.batches, remove, false), withdrawn := h.withdrawn + Selected(h.batches, remove, true))
    case Cleared => h.(batches := [], withdrawn := h.withdrawn + h.batches)
  }

  function Lived(steps: seq<QueueStep>): History {
    if steps == [] then History([], [], [], []) else Live(Lived(steps[..|steps| - 1]), steps[|steps| - 1])
  }

  /** The first sequence is the second one with some elements left out. */
  predicate Embeds(a: seq<Batch>, b: seq<Batch>) {
    a == [] ||
    (b != [] && (
      || (a[|a| - 1] == b[|b| - 1] && Embeds(a[..|a| - 1], b[..|b| - 1]))
      || Embeds(a, b[..|b| - 1])))
  }

  lemma EmbedBoth(a: seq<Batch>, b: seq<Batch>, x: Batch)
    requires Embeds(a, b)
    ensures Embeds(a + [x], b + [x]) && Embeds(a, b + [x])
  {
    assert (a + [x])[..|a|] == a && (b + [x])[..|b|] == b;
  }

  lemma {:induction false} EmbedsItself(a: seq<Batch>)
    ensures Embeds(a, a)
  {
    if a != [] {
      EmbedsItself(a[..|a| - 1]);
    }
  }

  lemma {:induction false} EmbedsThrough(a: seq<Batch>, b: seq<Batch>, c: seq<Batch>)
    requires Embeds(a, b) && Embeds(b, c)
    ensures Embeds(a, c)
    decreases |b| + |c|
  {
    if a == [] || b == [] {
    } else if Embeds(b, c[..|c| - 1]) {
      EmbedsThrough(a, b, c[..|c| - 1]);
    } else if Embeds(a, b[..|b| - 1]) {
      EmbedsThrough(a, b[..|b| - 1], c[..|c| - 1]);
    } else {
      EmbedsThrough(a[..|a| - 1], b[..|b| - 1], c[..|c| - 1]);
    }
  }

  /** Withdrawing keeps the order, of the batches that stay and of those that leave. */
  lemma {:induction false} SelectedEmbeds(
      front: seq<Batch>, batches: seq<Batch>, remove: Message -> bool, matching: bool)
    ensures Embeds(front + Selected(batches, remove, matching), front + batches)
  {
    if batches == [] {
      EmbedsItself(front);
      assert front + [] == front;
    } else {
      var init, last := batches[..|batches| - 1], batches[|batches| - 1];
      var kept := Selected(init, remove, matching);
      SelectedEmbeds(front, init, remove, matching);
      EmbedBoth(front + kept, front + init, last);
      assert front + batches == front + init + [last];
      assert front + (kept + [last]) == front + kept + [last] && front + (kept + []) == front + kept;
    }
  }

  lemma {:induction false} FrontEmbeds(front: seq<Batch>, batches: seq<Batch>)
    ensures Embeds(front, front + batches)
  {
    if batches == [] {
      EmbedsItself(front);
      assert front + [] == front;
    } else {
      var init, last := batches[..|batches| - 1], batches[|batches| - 1];
      FrontEmbeds(front, init);
      EmbedBoth(front, front + init, last);
      assert front + batches == front + init + [last];
    }
  }

  /**
   * Whatever is enqueued, drained in any modes, withdrawn and cleared: what was drained
   * and what waits keeps the order it was enqueued in, batch by batch.
   */
  lemma {:induction false} QueueIsFifo(steps: seq<QueueStep>)
    ensures var h := Lived(steps); Embeds(h.drained + h.batches, h.enqueued)
  {
    if steps == [] {
    } else {
      QueueIsFifo(steps[..|steps| - 1]);
      LiveKeepsOrder(Lived(steps[..|steps| - 1]), steps[|steps| - 1]);
    }
  }

  lemma LiveKeepsOrder(h: History, step: QueueStep)
    requires Embeds(h.drained + h.batches, h.enqueued)
    ensures var t := Live(h, step); Embeds(t.drained + t.batches, t.enqueued)
  {
    match step {
      case Enqueued(messages) =>
        if messages != [] {
          EmbedBoth(h.drained + h.batches, h.enqueued, messages);
          assert h.drained + (h.batches + [messages]) == h.drained + h.batches + [messages];
        }
      case Drained(mode) =>
        assert h.drained + Taken(h.batches, mode) + Left(h.batches, mode) == h.drained + h.batches;
      case Removed(remove) =>
        SelectedEmbeds(h.drained, h.batches, remove, false);
        EmbedsThrough(h.drained + Selected(h.batches, remove, false), h.drained + h.batches, h.enqueued);
      case Cleared =>
        FrontEmbeds(h.drained, h.batches);
        EmbedsThrough(h.drained, h.drained + h.batches, h.enqueued);
        assert h.drained + [] == h.drained;
    }
  }

  /** Every batch ever enqueued was drained, was withdrawn, or waits, and only one of them, once. */
  lemma {:induction false} QueueKeepsBatches(steps: seq<QueueStep>)
    ensures
      var h := Lived(steps);
      multiset(h.drained) + multiset(h.batches) + multiset(h.withdrawn) == multiset(h.enqueued)
  {
    if steps == [] {
    } else {
      QueueKeepsBatches(steps[..|steps| - 1]);
      LiveKeepsBatches(Lived(steps[..|steps| - 1]), steps[|steps| - 1]);
    }
  }

  lemma LiveKeepsBatches(h: History, step: QueueStep)
    requires multiset(h.drained) + multiset(h.batches) + multiset(h.withdrawn) == multiset(h.enqueued)
    ensures
      var t := Live(h, step);
      multiset(t.drained) + multiset(t.batches) + multiset(t.withdrawn) == multiset(t.enqueued)
  {
    match step {
      case Enqueued(messages) =>
      case Drained(mode) =>
        assert h.batches == Taken(h.batches, mode) + Left(h.batches, mode);
      case Removed(remove) =>
        WithdrawingSplits(h.batches, remove);
      case Cleared =>
    }
  }

  /** Any such history, played on a queue. */
  method Play(steps: seq<QueueStep>) returns (q: PendingMessageQueue)
    ensures fresh(q) && q.batches == Lived(steps).batches && q.drained == Lived(steps).drained
  {
    q := new PendingMessageQueue(All);
    for i := 0 to |steps|
      invariant q.batches == Lived(steps[..i]).batches && q.drained == Lived(steps[..i]).drained
    {
      assert steps[..i + 1][..i] == steps[..i];
      match steps[i] {
        case Enqueued(messages) =>
          q.Enqueue(messages);
        case Drained(mode) =>
          q.mode := mode;
          var _ := q.Drain();
        case Removed(remove) =>
          var _ := q.RemoveWhere(remove);
        case Cleared =>
          q.Clear();
      }
    }
    assert steps[..|steps|] == steps;
  }
}
