/** The events of an agent run: what the Agent rebuilds from them, and when a run's events are well formed. */
module AgentEvents {
  import opened Wrappers

  datatype StopReason = Stop | Length | ToolUse | Failed | Aborted

  datatype ToolCall = ToolCall(id: string, name: string)

  datatype AssistantMessage =
    AssistantMessage(text: string, calls: seq<ToolCall>, stop: StopReason, error: Option<string>)

  datatype Message =
    | User(text: string)
    | Custom(text: string)
    | Assistant(reply: AssistantMessage)
    | ToolResult(callId: string, toolName: string, text: string, isError: bool)

  datatype Event =
    | AgentStart
    | TurnStart
    | MessageStart(message: Message)
    | MessageUpdate(message: Message)
    | MessageEnd(message: Message)
    | ToolStart(callId: string)
    | ToolUpdate(callId: string)
    | ToolEnd(callId: string, isError: bool)
    | TurnEnd(reply: AssistantMessage, results: seq<Message>)
    | AgentEnd(messages: seq<Message>)

  // ---------------------------------------------------------------- the reducer

  /** What the Agent shows of its state. */
  datatype View = View(messages: seq<Message>, streaming: Option<Message>, pending: set<string>, error: Option<string>)

  function Reduce(v: View, e: Event): View {
    match e
    case MessageStart(m) => v.(streaming := Some(m))
    case MessageUpdate(m) => v.(streaming := Some(m))
    case MessageEnd(m) => v.(streaming := None, messages := v.messages + [m])
    case ToolStart(id) => v.(pending := v.pending + {id})
    case ToolEnd(id, _) => v.(pending := v.pending - {id})
    case TurnEnd(reply, _) => if reply.error.Some? && reply.error.value != "" then v.(error := reply.error) else v
    case AgentEnd(_) => v.(streaming := None)
    case AgentStart => v
    case TurnStart => v
    case ToolUpdate(_) => v
  }

  function ReduceAll(v: View, events: seq<Event>): View {
    if events == [] then v else Reduce(ReduceAll(v, events[..|events| - 1]), events[|events| - 1])
  }

  function Ended(events: seq<Event>): seq<Message> {
    if events == [] then []
    else
      var last := events[|events| - 1];
      Ended(events[..|events| - 1]) + if last.MessageEnd? then [last.message] else []
  }

  /** The transcript only ever grows by the messages that ended. */
  lemma {:induction false} TranscriptIsWhatEnded(v: View, events: seq<Event>)
    ensures ReduceAll(v, events).messages == v.messages + Ended(events)
  {
    if events == [] {
    } else {
      TranscriptIsWhatEnded(v, events[..|events| - 1]);
    }
  }

  /** No end of the call comes after position i. */
  predicate StaysOpen(events: seq<Event>, i: int, id: string) {
    forall j :: 0 <= j < |events| && i < j ==> !(events[j].ToolEnd? && events[j].callId == id)
  }

  predicate StartedAt(events: seq<Event>, i: int, id: string) {
    0 <= i < |events| && events[i].ToolStart? && events[i].callId == id
  }

  ghost predicate RunsIn(events: seq<Event>, id: string) {
    exists i :: StartedAt(events, i, id) && StaysOpen(events, i, id)
  }

  /** A call is pending exactly when nothing has ended it since it last started. */
  lemma {:induction false} PendingIsWhatRuns(v: View, events: seq<Event>, id: string)
    ensures id in ReduceAll(v, events).pending <==>
              (id in v.pending && StaysOpen(events, -1, id)) ||
              RunsIn(events, id)
  {
    if events == [] {
    } else {
      var n := |events| - 1;
      var front, last := events[..n], events[n];
      PendingIsWhatRuns(v, front, id);
      if last == ToolStart(id) {
        assert StartedAt(events, n, id) && StaysOpen(events, n, id);
      } else if last.ToolEnd? && last.callId == id {
        assert !StaysOpen(events, -1, id);
        forall i | StartedAt(events, i, id)
          ensures !StaysOpen(events, i, id)
        {
          assert i < n;
        }
      } else {
        PendingIsUnmoved(events, id);
      }
    }
  }

  /** An event about something else changes nothing for the call. */
  lemma PendingIsUnmoved(events: seq<Event>, id: string)
    requires events != []
    requires var last := events[|events| - 1]; last != ToolStart(id) && !(last.ToolEnd? && last.callId == id)
    ensures StaysOpen(events, -1, id) <==> StaysOpen(events[..|events| - 1], -1, id)
    ensures RunsIn(events, id) <==> RunsIn(events[..|events| - 1], id)
  {
    var front := events[..|events| - 1];
    forall i
      ensures StaysOpen(events, i, id) <==> StaysOpen(front, i, id)
    {
      OpenIsUnmoved(events, i, id);
    }
    forall i
      ensures StartedAt(events, i, id) <==> StartedAt(front, i, id)
    {
    }
  }

  lemma OpenIsUnmoved(events: seq<Event>, i: int, id: string)
    requires events != []
    requires var last := events[|events| - 1]; !(last.ToolEnd? && last.callId == id)
    ensures StaysOpen(events, i, id) <==> StaysOpen(events[..|events| - 1], i, id)
  {
    var front := events[..|events| - 1];
    if StaysOpen(front, i, id) {
      forall j | 0 <= j < |events| && i < j
        ensures !(events[j].ToolEnd? && events[j].callId == id)
      {
        assert j < |front| ==> events[j] == front[j];
      }
    }
    if StaysOpen(events, i, id) {
      forall j | 0 <= j < |front| && i < j
        ensures !(front[j].ToolEnd? && front[j].callId == id)
      {
        assert events[j] == front[j];
      }
    }
  }

  // ---------------------------------------------------------------- well-formed runs

  datatype Phase = BeforeRun | BetweenTurns | InTurn | InMessage | AfterRun | Malformed

  function Advance(p: Phase, e: Event): Phase {
    match (p, e)
    case (BeforeRun, AgentStart) => BetweenTurns
    case (BetweenTurns, TurnStart) => InTurn
    case (BetweenTurns, AgentEnd(_)) => AfterRun
    case (InTurn, MessageStart(_)) => InMessage
    case (InTurn, ToolStart(_)) => InTurn
    case (InTurn, ToolUpdate(_)) => InTurn
    case (InTurn, ToolEnd(_, _)) => InTurn
    case (InTurn, TurnEnd(_, _)) => BetweenTurns
    case (InMessage, MessageUpdate(_)) => InMessage
    case (InMessage, MessageEnd(_)) => InTurn
    case _ => Malformed
  }

  function PhaseAfter(events: seq<Event>): Phase {
    if events == [] then BeforeRun else Advance(PhaseAfter(events[..|events| - 1]), events[|events| - 1])
  }

  predicate UpdatesOnly(events: seq<Event>, i: int, j: int) {
    forall k :: 0 <= k < |events| && i < k < j ==> events[k].MessageUpdate?
  }

  predicate MessageClosedAt(events: seq<Event>, i: int, j: int) {
    0 <= i < j < |events| && events[j].MessageEnd? && UpdatesOnly(events, i, j)
  }

  lemma UpdatesInPrefix(events: seq<Event>, i: int, j: int)
    requires events != [] && j < |events|
    ensures UpdatesOnly(events, i, j) <==> UpdatesOnly(events[..|events| - 1], i, j)
  {
    var front := events[..|events| - 1];
    if UpdatesOnly(front, i, j) {
      forall k | 0 <= k < |events| && i < k < j
        ensures events[k].MessageUpdate?
      {
        assert front[k] == events[k];
      }
    }
    if UpdatesOnly(events, i, j) {
      forall k | 0 <= k < |front| && i < k < j
        ensures front[k].MessageUpdate?
      {
        assert front[k] == events[k];
      }
    }
  }

  lemma {:induction false} MessageClosesOrIsOpen(events: seq<Event>, i: nat)
    requires PhaseAfter(events) != Malformed && i < |events| && events[i].MessageStart?
    ensures (exists j :: MessageClosedAt(events, i, j)) ||
            (PhaseAfter(events) == InMessage && UpdatesOnly(events, i, |events|))
  {
    var n := |events| - 1;
    var front := events[..n];
    if i < n {
      MessageClosesOrIsOpen(front, i);
      if j :| MessageClosedAt(front, i, j) {
        UpdatesInPrefix(events, i, j);
        assert MessageClosedAt(events, i, j);
      } else {
        UpdatesInPrefix(events, i, n);
        assert UpdatesOnly(events, i, n);
        if events[n].MessageEnd? {
          assert MessageClosedAt(events, i, n);
        } else {
          assert UpdatesOnly(events, i, |events|);
        }
      }
    }
  }

  predicate SameTurn(events: seq<Event>, i: int, j: int) {
    forall k :: 0 <= k < |events| && i < k < j ==> !events[k].TurnStart? && !events[k].TurnEnd? && !events[k].AgentEnd?
  }

  /** A run's turns on their own, whatever its messages do. */
  datatype TurnPhase = Between | Within | Mangled

  function AdvanceTurn(p: TurnPhase, e: Event): TurnPhase {
    if e.TurnStart? then (if p == Between then Within else Mangled)
    else if e.TurnEnd? then (if p == Within then Between else Mangled)
    else if e.AgentEnd? && p == Within then Mangled
    else p
  }

  function TurnPhaseAfter(events: seq<Event>): TurnPhase {
    if events == [] then Between else AdvanceTurn(TurnPhaseAfter(events[..|events| - 1]), events[|events| - 1])
  }

  predicate TurnStartsAt(events: seq<Event>, i: int) {
    0 <= i < |events| && events[i].TurnStart?
  }

  predicate TurnEndsAt(events: seq<Event>, j: int) {
    0 <= j < |events| && events[j].TurnEnd?
  }

  /** The turn that starts at i is the one that ends at j, or that is still going on there. */
  predicate TurnSpans(events: seq<Event>, i: int, j: int) {
    TurnStartsAt(events, i) && i < j && SameTurn(events, i, j)
  }

  ghost predicate TurnCloses(events: seq<Event>, i: int) {
    exists j :: TurnEndsAt(events, j) && TurnSpans(events, i, j)
  }

  ghost predicate TurnOpened(events: seq<Event>, j: int) {
    exists i :: TurnSpans(events, i, j)
  }

  /** Every turn that starts ends before another turn starts or the run ends, and no turn ends that has not started. */
  ghost predicate TurnsPaired(events: seq<Event>) {
    && (forall i :: TurnStartsAt(events, i) ==> TurnCloses(events, i))
    && (forall j :: TurnEndsAt(events, j) ==> TurnOpened(events, j))
  }

  /** The same for a run that is still going on: its last turn may be open. */
  ghost predicate TurnsPairedSoFar(events: seq<Event>) {
    && (forall i :: TurnStartsAt(events, i) ==> TurnCloses(events, i) || TurnSpans(events, i, |events|))
    && (forall j :: TurnEndsAt(events, j) ==> TurnOpened(events, j))
  }

  lemma SpanInPrefix(events: seq<Event>, i: int, j: int)
    requires events != [] && j < |events|
    ensures TurnSpans(events[..|events| - 1], i, j) <==> TurnSpans(events, i, j)
  {
    var front := events[..|events| - 1];
    assert forall k :: 0 <= k < |front| ==> front[k] == events[k];
  }

  lemma SpanGrows(events: seq<Event>, i: int)
    requires events != []
    ensures
      var n := |events| - 1;
      TurnSpans(events, i, |events|) <==>
        if i == n then events[n].TurnStart?
        else TurnSpans(events[..n], i, n) && !events[n].TurnStart? && !events[n].TurnEnd? && !events[n].AgentEnd?
  {
    var n := |events| - 1;
    assert forall k :: 0 <= k < n ==> events[..n][k] == events[k];
  }

  /** What one more event does to the turns that have an end and to those that have a start. */
  lemma OneMoreEvent(events: seq<Event>, i: int)
    requires events != []
    ensures
      var n := |events| - 1;
      TurnCloses(events, i) <==> TurnCloses(events[..n], i) || (events[n].TurnEnd? && TurnSpans(events[..n], i, n))
    ensures i < |events| ==> (TurnOpened(events, i) <==> TurnOpened(events[..|events| - 1], i))
  {
    var n := |events| - 1;
    var front := events[..n];
    forall j | j < |events|
      ensures TurnSpans(front, i, j) <==> TurnSpans(events, i, j)
      ensures j < n ==> (TurnEndsAt(front, j) <==> TurnEndsAt(events, j))
    {
      SpanInPrefix(events, i, j);
    }
    assert events[n].TurnEnd? <==> TurnEndsAt(events, n);
    if i < |events| {
      forall k
        ensures TurnSpans(front, k, i) <==> TurnSpans(events, k, i)
      {
        SpanInPrefix(events, k, i);
      }
    }
  }

  /** The pairing of a prefix, and what the next event has to be like for it to last. */
  lemma PairedOneMore(events: seq<Event>)
    requires events != []
    ensures
      var n := |events| - 1;
      TurnsPairedSoFar(events) <==>
        && TurnsPairedSoFar(events[..n])
        && (events[n].TurnEnd? ==> TurnOpened(events[..n], n))
        && (events[n].TurnStart? || events[n].AgentEnd? ==> !TurnOpened(events[..n], n))
  {
    var n := |events| - 1;
    var front := events[..n];
    assert forall i :: i < n ==>
      (TurnStartsAt(front, i) <==> TurnStartsAt(events, i)) && (TurnEndsAt(front, i) <==> TurnEndsAt(events, i));
    forall i
      ensures TurnCloses(events, i) <==> TurnCloses(front, i) || (events[n].TurnEnd? && TurnSpans(front, i, n))
      ensures i < |events| ==> (TurnOpened(events, i) <==> TurnOpened(front, i))
      ensures TurnSpans(events, i, |events|) <==>
                if i == n then events[n].TurnStart?
                else TurnSpans(front, i, n) && !events[n].TurnStart? && !events[n].TurnEnd? && !events[n].AgentEnd?
      ensures TurnCloses(front, i) ==> !TurnSpans(front, i, n)
    {
      OneMoreEvent(events, i);
      SpanGrows(events, i);
    }
  }

  lemma OpenOneMore(events: seq<Event>)
    requires events != []
    ensures
      var n := |events| - 1;
      TurnOpened(events, |events|) <==>
        events[n].TurnStart? || (TurnOpened(events[..n], n) && !events[n].TurnEnd? && !events[n].AgentEnd?)
  {
    var n := |events| - 1;
    forall i
      ensures TurnSpans(events, i, |events|) <==>
                if i == n then events[n].TurnStart?
                else TurnSpans(events[..n], i, n)
                     && !events[n].TurnStart? && !events[n].TurnEnd? && !events[n].AgentEnd?
    {
      SpanGrows(events, i);
    }
    if events[n].TurnStart? {
      assert TurnSpans(events, n, |events|);
    } else if i :| TurnSpans(events[..n], i, n) {
      assert TurnSpans(events, i, |events|) <==> !events[n].TurnEnd? && !events[n].AgentEnd?;
    }
  }

  /** The turn automaton is right: it breaks exactly if the turns are not paired, and knows whether one is open. */
  lemma {:induction false} TurnPhaseExactly(events: seq<Event>)
    ensures TurnPhaseAfter(events) != Mangled <==> TurnsPairedSoFar(events)
    ensures TurnsPairedSoFar(events) ==> (TurnPhaseAfter(events) == Within <==> TurnOpened(events, |events|))
  {
    if events != [] {
      var n := |events| - 1;
      TurnPhaseExactly(events[..n]);
      PairedOneMore(events);
      OpenOneMore(events);
    }
  }

  /** The turns of a run are paired exactly if the automaton ends between two turns. */
  lemma TurnsPairedExactly(events: seq<Event>)
    ensures TurnPhaseAfter(events) == Between <==> TurnsPaired(events)
  {
    TurnPhaseExactly(events);
    var n := |events|;
    if TurnsPaired(events) {
      forall i
        ensures !TurnSpans(events, i, n)
      {
      }
    }
  }

  lemma {:induction false} WellFormedTurns(events: seq<Event>)
    requires PhaseAfter(events) != Malformed
    ensures TurnPhaseAfter(events) ==
              if PhaseAfter(events) == InTurn || PhaseAfter(events) == InMessage then Within else Between
  {
    if events != [] {
      WellFormedTurns(events[..|events| - 1]);
    }
  }

  /**
   * In a well-formed run every message that starts ends, with nothing but its own updates
   * in between, and every turn that starts ends before another one starts.
   */
  lemma WellFormedRunsAreBalanced(events: seq<Event>)
    requires PhaseAfter(events) == AfterRun
    ensures forall i :: 0 <= i < |events| && events[i].MessageStart? ==> exists j :: MessageClosedAt(events, i, j)
    ensures TurnsPaired(events)
  {
    forall i | 0 <= i < |events| && events[i].MessageStart?
      ensures exists j :: MessageClosedAt(events, i, j)
    {
      MessageClosesOrIsOpen(events, i);
    }
    WellFormedTurns(events);
    TurnsPairedExactly(events);
  }

  // ---------------------------------------------------------------- the end of a run

  datatype Closing = Open | Closed | Spoiled

  function Close(c: Closing, e: Event): Closing {
    if c == Open then (if e.AgentEnd? then Closed else Open) else Spoiled
  }

  function ClosingAfter(events: seq<Event>): Closing {
    if events == [] then Open else Close(ClosingAfter(events[..|events| - 1]), events[|events| - 1])
  }

  predicate EndsAt(events: seq<Event>, i: int) {
    0 <= i < |events| && events[i].AgentEnd?
  }

  lemma EndsInPrefix(events: seq<Event>, i: int)
    requires events != [] && i < |events| - 1
    ensures EndsAt(events[..|events| - 1], i) <==> EndsAt(events, i)
  {
  }

  lemma {:induction false} OpenExactly(events: seq<Event>)
    ensures ClosingAfter(events) == Open <==> forall i :: !EndsAt(events, i)
  {
    if events == [] {
    } else {
      var n := |events| - 1;
      OpenExactly(events[..n]);
      forall i | i < n
        ensures EndsAt(events[..n], i) <==> EndsAt(events, i)
      {
        EndsInPrefix(events, i);
      }
      assert EndsAt(events, n) <==> events[n].AgentEnd?;
    }
  }

  /** Closed says that agent_end was emitted exactly once, and last. */
  lemma ClosedExactly(events: seq<Event>)
    ensures ClosingAfter(events) == Closed <==>
              EndsAt(events, |events| - 1) && forall i :: EndsAt(events, i) ==> i == |events| - 1
  {
    if events != [] {
      var n := |events| - 1;
      OpenExactly(events[..n]);
      forall i | i < n
        ensures EndsAt(events[..n], i) <==> EndsAt(events, i)
      {
        EndsInPrefix(events, i);
      }
    }
  }

  // ---------------------------------------------------------------- everything a run's events say

  /** The turns closed by the events, with their replies and tool results. */
  function ClosedTurns(events: seq<Event>): seq<(AssistantMessage, seq<Message>)> {
    if events == [] then []
    else
      var last := events[|events| - 1];
      ClosedTurns(events[..|events| - 1]) + if last.TurnEnd? then [(last.reply, last.results)] else []
  }

  datatype Watch =
    Watch(phase: Phase, turnPhase: TurnPhase, closing: Closing, ended: seq<Message>,
          turns: seq<(AssistantMessage, seq<Message>)>)

  ghost function WatchAll(events: seq<Event>): Watch {
    Watch(PhaseAfter(events), TurnPhaseAfter(events), ClosingAfter(events), Ended(events), ClosedTurns(events))
  }

  function See(w: Watch, e: Event): Watch {
    Watch(Advance(w.phase, e), AdvanceTurn(w.turnPhase, e), Close(w.closing, e),
          w.ended + if e.MessageEnd? then [e.message] else [],
          w.turns + if e.TurnEnd? then [(e.reply, e.results)] else [])
  }

  lemma WatchOneMore(v: View, events: seq<Event>, e: Event)
    ensures WatchAll(events + [e]) == See(WatchAll(events), e)
    ensures ReduceAll(v, events + [e]) == Reduce(ReduceAll(v, events), e)
  {
    assert (events + [e])[..|events|] == events;
  }
}
