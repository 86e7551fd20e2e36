/** A whole run of the Agent: what is left of it when it returns, is aborted, or fails. */
module AgentRuns {
  import opened AgentEvents
  import opened AgentHost
  import opened AgentState
  import opened MessageQueue
  import opened AgentLoop
  import opened RunRecords
  import opened Sequences
  import opened Wrappers

  method BeginRun(agent: Agent)
    requires agent.steeringQueue != agent.followUpQueue && !agent.active && agent.Idle()
    modifies agent
    ensures agent.Valid() && agent.active && !agent.aborted && agent.isStreaming && !agent.failed
    ensures agent.messages == old(agent.messages) && agent.start.messages == agent.messages
    ensures agent.pendingToolCalls == {} && agent.errorMessage == None
    ensures agent.events == [] && agent.watch == Watch(BeforeRun, Between, Open, [], [])
  {
    agent.active, agent.aborted := true, false;
    agent.isStreaming, agent.streamingMessage, agent.errorMessage := true, None, None;
    agent.start, agent.events, agent.failed := agent.Shown(), [], false;
    agent.watch := WatchAll([]);
  }

  /** Nothing of the run stays behind but its messages and its error. */
  method FinishRun(agent: Agent)
    modifies agent`isStreaming, agent`streamingMessage, agent`pendingToolCalls, agent`active
    ensures !agent.active && agent.Idle()
  {
    agent.isStreaming, agent.streamingMessage, agent.pendingToolCalls, agent.active := false, None, {}, false;
  }

  /** An exception becomes a failed or aborted message, and the end of the run. */
  method HandleRunFailure(agent: Agent, error: string) returns (failure: AssistantMessage)
    requires agent.Valid() && agent.active && agent.watch.closing == Open
    modifies agent, agent.steeringQueue, agent.followUpQueue
    ensures agent.Valid() && agent.active && agent.start == old(agent.start) && (old(agent.aborted) ==> agent.aborted)
    ensures agent.steeringQueue.drained == old(agent.steeringQueue.drained)
    ensures agent.followUpQueue.drained == old(agent.followUpQueue.drained)
    ensures failure == AssistantMessage("", [], if old(agent.aborted) then Aborted else Failed, Some(error))
    ensures agent.errorMessage == Some(error)
    ensures agent.watch.ended == old(agent.watch).ended + [Assistant(failure)] && agent.watch.closing == Closed
    ensures agent.events != [] && agent.events[|agent.events| - 1] == AgentEnd([Assistant(failure)])
  {
    failure := AssistantMessage("", [], if agent.aborted then Aborted else Failed, Some(error));
    agent.errorMessage, agent.failed := Some(error), true;
    EndWith(agent, Assistant(failure));
  }

  method EndWith(agent: Agent, failure: Message)
    requires agent.Valid() && agent.active && agent.watch.closing == Open
    modifies agent, agent.steeringQueue, agent.followUpQueue
    ensures agent.StillRunning() && agent.errorMessage == old(agent.errorMessage)
    ensures agent.watch.ended == old(agent.watch).ended + [failure] && agent.watch.closing == Closed
    ensures agent.events != [] && agent.events[|agent.events| - 1] == AgentEnd([failure])
  {
    hide ReduceAll, WatchAll;
    agent.Emit(MessageStart(failure));
    agent.Emit(MessageEnd(failure));
    agent.Emit(AgentEnd([failure]));
  }

  method AnnouncePrompts(loop: Loop, prompts: seq<Message>)
    requires loop.agent.Valid() && loop.agent.active && InsideTurn(loop.agent.watch)
    modifies loop.agent, loop.agent.steeringQueue, loop.agent.followUpQueue
    ensures loop.agent.StillRunning() && loop.agent.pendingToolCalls == old(loop.agent.pendingToolCalls)
    ensures loop.agent.watch == old(loop.agent.watch).(ended := old(loop.agent.watch).ended + prompts)
  {
    hide ReduceAll, WatchAll;
    for i := 0 to |prompts|
      invariant loop.agent.StillRunning() && loop.agent.pendingToolCalls == old(loop.agent.pendingToolCalls)
      invariant loop.agent.watch == old(loop.agent.watch).(ended := old(loop.agent.watch).ended + prompts[..i])
    {
      loop.Announce(prompts[i]);
      assert prompts[..i + 1] == prompts[..i] + [prompts[i]];
    }
    assert prompts[..|prompts|] == prompts;
  }

  /** What the loop does before its first turn: the prompts are new messages like any others. */
  method StartLoop(loop: Loop, prompts: seq<Message>)
    requires Opening(loop, prompts)
    modifies loop`context, loop`newMessages, loop.agent, loop.agent.steeringQueue, loop.agent.followUpQueue
    ensures loop.agent.Unfinished() && loop.Balanced([], InTurn)
  {
    hide ReduceAll, WatchAll;
    loop.newMessages := prompts;
    loop.context := loop.context + prompts;
    loop.agent.Emit(AgentStart);
    loop.agent.Emit(TurnStart);
    AnnouncePrompts(loop, prompts);
    assert prompts + [] + [] == prompts;
  }

  ghost predicate Opening(loop: Loop, prompts: seq<Message>)
    reads loop, loop.agent, loop.agent.steeringQueue, loop.agent.followUpQueue
  {
    && loop.agent.Valid() && loop.agent.active
    && loop.agent.events == [] && loop.agent.watch == Watch(BeforeRun, Between, Open, [], [])
    && loop.agent.pendingToolCalls == {}
    && loop.prompts == prompts && loop.base == loop.context && loop.newMessages == []
    && loop.turns == [] && loop.polls == [] && loop.extraStarts == 0 && loop.skipSteeringPoll == loop.skips
    && loop.QueuesMatch()
  }

  /** What a run that returned has done, seen from the Agent. */
  ghost predicate RanToEnd(loop: Loop, agent: Agent, before: seq<Message>, why: Why)
    reads loop, agent, loop.agent.steeringQueue, loop.agent.followUpQueue
  {
    && loop.QueuesMatch()
    && agent.messages == before + loop.newMessages
    && loop.newMessages == loop.prompts + Transcript(loop.turns)
    && (loop.context == agent.messages <==> loop.extraStarts == 0)
    && (PhaseAfter(agent.events) == AfterRun <==> loop.extraStarts == 0)
    && TurnsPaired(agent.events)
    && ClosedTurns(agent.events) == Closings(loop.turns)
    && ClosingAfter(agent.events) == Closed
    && agent.events != [] && agent.events[|agent.events| - 1] == AgentEnd(loop.newMessages)
    && AllAnswered(loop.turns, agent.tools)
    && loop.agent == agent && loop.MayEnd(why)
    && (!agent.aborted ==> Delivered(loop.turns, loop.polls, [], loop.World()))
  }

  ghost predicate FailedWith(loop: Loop, agent: Agent, before: seq<Message>, failure: AssistantMessage)
    reads loop, agent
  {
    && agent.messages == before + loop.newMessages + [Assistant(failure)]
    && failure.stop in {Failed, Aborted} && (failure.stop == Aborted ==> agent.aborted)
    && agent.errorMessage == failure.error
    && agent.events != [] && agent.events[|agent.events| - 1] == AgentEnd([Assistant(failure)])
  }

  /** What a run that broke off has done: the messages, those of the broken turn, and the failure. */
  ghost predicate BrokeOff(loop: Loop, agent: Agent, before: seq<Message>, rest: seq<Message>)
    reads loop, agent, loop.agent.steeringQueue, loop.agent.followUpQueue
  {
    && loop.QueuesMatch()
    && ClosingAfter(agent.events) == Closed
    && loop.newMessages == loop.prompts + Transcript(loop.turns) + rest
    && (exists failure :: FailedWith(loop, agent, before, failure))
    && (!agent.aborted ==> Delivered(loop.turns, loop.polls, rest, loop.World()))
  }

  /** A run cut off after so many turns is still going on, and nothing is amiss. */
  ghost predicate GoesOn(loop: Loop, agent: Agent, before: seq<Message>, rest: seq<Message>)
    reads loop, agent, loop.agent.steeringQueue, loop.agent.followUpQueue
  {
    && loop.QueuesMatch()
    && agent.active
    && agent.messages == before + loop.newMessages
    && loop.newMessages == loop.prompts + Transcript(loop.turns)
    && ClosingAfter(agent.events) == Open
    && TurnsPairedSoFar(agent.events)
    && (!agent.aborted ==> Delivered(loop.turns, loop.polls, rest, loop.World()))
  }

  /** What the record of a run's events says of the Agent. */
  lemma WatchTells(agent: Agent)
    requires agent.Valid()
    ensures agent.messages == agent.start.messages + agent.watch.ended && PhaseAfter(agent.events) == agent.watch.phase
    ensures ClosingAfter(agent.events) == agent.watch.closing
  {
    TranscriptIsWhatEnded(agent.start, agent.events);
  }

  method ConcludeReturned(loop: Loop, ghost before: seq<Message>, ghost why: Why)
    requires loop.Finished(why) && loop.agent.start.messages == before && loop.base == before && !loop.agent.failed
    modifies loop.agent`isStreaming, loop.agent`streamingMessage, loop.agent`pendingToolCalls, loop.agent`active
    ensures !loop.agent.active && loop.agent.Idle() && RanToEnd(loop, loop.agent, before, why)
  {
    TranscriptIsWhatEnded(loop.agent.start, loop.agent.events);
    TurnsPairedExactly(loop.agent.events);
    ContextIsExact(loop.base, loop.context, loop.newMessages, loop.extraStarts);
    FinishRun(loop.agent);
  }

  method ConcludeThrown(loop: Loop, error: string, ghost before: seq<Message>, ghost rest: seq<Message>)
    requires loop.Broken(rest) && loop.agent.start.messages == before
    modifies loop.agent, loop.agent.steeringQueue, loop.agent.followUpQueue
    ensures !loop.agent.active && loop.agent.Idle() && BrokeOff(loop, loop.agent, before, rest)
    ensures (old(loop.agent.aborted) ==> loop.agent.aborted) && loop.agent.errorMessage == Some(error)
  {
    hide ReduceAll, WatchAll, Delivered, AllAnswered, Transcript, Closings, PolledFrom;
    var failure := HandleRunFailure(loop.agent, error);
    WatchTells(loop.agent);
    assert before + loop.newMessages + [Assistant(failure)] == before + (loop.newMessages + [Assistant(failure)]);
    FinishRun(loop.agent);
    assert FailedWith(loop, loop.agent, before, failure);
  }

  /** Settles a run that has ended one way or another. */
  method Conclude(end: LoopEnd, loop: Loop, error: string, ghost before: seq<Message>, ghost rest: seq<Message>)
    requires match end
             case Returned(why) => loop.Finished(why)
             case Thrown => loop.Broken(rest)
             case CutOff => loop.Balanced(rest, InTurn) || loop.Balanced(rest, BetweenTurns)
    requires loop.agent.start.messages == before && loop.base == before && !loop.agent.failed
    modifies loop.agent, loop.agent.steeringQueue, loop.agent.followUpQueue
    ensures Settled(end, loop, before, rest) && (old(loop.agent.aborted) ==> loop.agent.aborted)
    ensures end == Thrown ==> loop.agent.errorMessage == Some(error)
  {
    if end.Returned? {
      ConcludeReturned(loop, before, end.why);
    } else if end == Thrown {
      ConcludeThrown(loop, error, before, rest);
    } else {
      TranscriptIsWhatEnded(loop.agent.start, loop.agent.events);
      TurnPhaseExactly(loop.agent.events);
    }
  }

  ghost predicate Settled(end: LoopEnd, loop: Loop, before: seq<Message>, rest: seq<Message>)
    reads loop, loop.agent, loop.agent.steeringQueue, loop.agent.followUpQueue
  {
    && (end != CutOff ==> !loop.agent.active && loop.agent.Idle())
    && match end
       case Returned(why) => RanToEnd(loop, loop.agent, before, why)
       case Thrown => BrokeOff(loop, loop.agent, before, rest)
       case CutOff => GoesOn(loop, loop.agent, before, rest)
  }

  /** A run begins: nothing is left of earlier ones, and the prompts are announced. */
  method OpenRun(agent: Agent, host: Host, prompts: seq<Message>, skipInitialSteeringPoll: bool) returns (loop: Loop)
    requires agent.steeringQueue != agent.followUpQueue && !agent.active && agent.Idle()
    modifies agent, agent.steeringQueue, agent.followUpQueue
    ensures fresh(loop) && loop.agent == agent && loop.host == host && loop.skips == skipInitialSteeringPoll
    ensures loop.steeredBefore == old(agent.steeringQueue.drained) &&
              loop.followedBefore == old(agent.followUpQueue.drained)
    ensures loop.prompts == prompts && loop.base == old(agent.messages) && loop.turns == [] && loop.extraStarts == 0
    ensures loop.Balanced([], InTurn) && !agent.failed && agent.start.messages == old(agent.messages)
  {
    hide ReduceAll, WatchAll;
    BeginRun(agent);
    loop := new Loop(agent, host, prompts, skipInitialSteeringPoll);
    assert loop.steeredBefore + [] == loop.steeredBefore && loop.followedBefore + [] == loop.followedBefore;
    StartLoop(loop, prompts);
  }

  /**
   * Why a run ended as it did. It throws only when aborted or when a stream fails, and is cut off only at
   * the limit. Unless it was aborted, its last reply failed, or a hook asked to stop after its last turn, it
   * returns only when that turn wants no more and steering, follow-ups and continuations all had nothing.
   */
  ghost predicate EndedFor(end: LoopEnd, loop: Loop, limit: nat)
    reads loop, loop.agent
  {
    match end
    case Thrown =>
      var script := loop.host.stream(loop.newMessages);
      || loop.agent.aborted || !script.opens || script.result.None?
      || (script.breaks && forall e :: e in script.events ==> !e.Final?)
    case CutOff => |loop.turns| == limit
    case Returned(_) =>
      !loop.agent.aborted && Going(loop.turns) && Silent(loop.host, loop.newMessages) ==>
        NothingLeftToDo(loop.turns, loop.polls, loop.World())
  }

  lemma EndsForACause(end: LoopEnd, loop: Loop, rest: seq<Message>, limit: nat)
    requires loop.Outcome(end, rest) && (end == CutOff ==> |loop.turns| == limit)
    requires end.Returned? && !loop.agent.aborted && Going(loop.turns) && Silent(loop.host, loop.newMessages) ==>
               NothingLeftToDo(loop.turns, loop.polls, loop.World())
    ensures EndedFor(end, loop, limit)
  {
    hide ReduceAll, WatchAll, Delivered, AllAnswered, Transcript, Closings, PolledFrom, NothingLeftToDo;
  }

  /**
   * A run from new messages: when it returns, the Agent's messages are the old ones, the
   * prompts, and turn by turn what was injected, the reply and its tool results.
   */
  method RunPromptMessages(agent: Agent, host: Host, messages: seq<Message>, skipInitialSteeringPoll: bool,
                           error: string, limit: nat)
    returns (end: LoopEnd, loop: Loop, ghost rest: seq<Message>)
    requires agent.steeringQueue != agent.followUpQueue && !agent.active && agent.Idle()
    modifies agent, agent.steeringQueue, agent.followUpQueue
    ensures fresh(loop) && loop.agent == agent && loop.steeredBefore == old(agent.steeringQueue.drained)
    ensures loop.followedBefore == old(agent.followUpQueue.drained) && loop.prompts == messages
    ensures Settled(end, loop, old(agent.messages), rest) && EndedFor(end, loop, limit)
    ensures loop.host == host && loop.skips == skipInitialSteeringPoll
    ensures end == Thrown ==> agent.errorMessage == Some(error)
  {
    hide ReduceAll, WatchAll, Delivered, AllAnswered, Transcript, Closings, PolledFrom, NothingLeftToDo, SaidBy;
    loop := OpenRun(agent, host, messages, skipInitialSteeringPoll);
    end, rest := loop.RunLoop(limit);
    EndsForACause(end, loop, rest, limit);
    Conclude(end, loop, error, old(agent.messages), rest);
  }

  /** The loop's handling of a stream that starts twice before its final message. */
  method StreamTwoStarts(loop: Loop, first: AssistantMessage, second: AssistantMessage, final: AssistantMessage)
    requires loop.agent.Valid() && loop.agent.active && loop.extraStarts == 0
    requires loop.agent.watch.phase == InTurn && loop.agent.watch.closing == Open
    modifies loop`context, loop`extraStarts, loop.agent, loop.agent.steeringQueue, loop.agent.followUpQueue
    ensures loop.agent.StillRunning() && loop.extraStarts == 1
    ensures loop.context == old(loop.context) + [Assistant(first), Assistant(final)]
    ensures loop.agent.watch ==
              old(loop.agent.watch).(ended := old(loop.agent.watch).ended + [Assistant(final)], phase := Malformed)
  {
    hide ReduceAll, WatchAll;
    ghost var context0, watch0 := loop.context, loop.agent.watch;
    loop.StartPartial(first, false, context0, 0, watch0);
    loop.StartPartial(second, true, context0, 0, watch0);
    loop.Conclude(final, true, context0, 0, watch0);
  }

  /**
   * A stream with two starts: the first partial message stays in the loop's context for good, the
   * transcript never has it, and the events are not well formed.
   */
  method SecondStartLeavesAStalePartial(agent: Agent, host: Host, first: AssistantMessage, second: AssistantMessage,
                                        final: AssistantMessage)
    returns (loop: Loop)
    requires agent.steeringQueue != agent.followUpQueue && !agent.active && agent.Idle()
    modifies agent, agent.steeringQueue, agent.followUpQueue
    ensures fresh(loop) && loop.agent == agent && loop.extraStarts == 1
    ensures loop.context == old(agent.messages) + [Assistant(first), Assistant(final)]
    ensures agent.messages == old(agent.messages) + [Assistant(final)] && loop.context != agent.messages
    ensures PhaseAfter(agent.events) == Malformed
  {
    hide ReduceAll, WatchAll, Delivered, AllAnswered, Closings, PolledFrom;
    loop := OpenRun(agent, host, [], false);
    assert loop.context == old(agent.messages) && agent.watch.ended == [];
    StreamTwoStarts(loop, first, second, final);
    WatchTells(agent);
  }

  /** A run from the messages as they are; the loop itself refuses to start from nothing or from a reply. */
  method RunContinuation(agent: Agent, host: Host, error: string, limit: nat)
    returns (end: LoopEnd, started: bool, loop: Loop, ghost rest: seq<Message>)
    requires agent.steeringQueue != agent.followUpQueue && !agent.active && agent.Idle()
    modifies agent, agent.steeringQueue, agent.followUpQueue
    ensures fresh(loop) && loop.agent == agent && loop.steeredBefore == old(agent.steeringQueue.drained)
    ensures loop.followedBefore == old(agent.followUpQueue.drained) && loop.prompts == []
    ensures Settled(end, loop, old(agent.messages), rest) && loop.host == host && !loop.skips
    ensures started ==> EndedFor(end, loop, limit)
    ensures started <==> MayContinue(old(agent.messages))
    ensures started <==> old(agent.messages) != [] && !old(agent.messages)[|old(agent.messages)| - 1].Assistant?
    ensures !started ==> end == Thrown && loop.newMessages == []
  {
    BeginRun(agent);
    loop := new Loop(agent, host, [], false);
    assert loop.steeredBefore + [] == loop.steeredBefore && loop.followedBefore + [] == loop.followedBefore;
    started := MayContinue(loop.context);
    if started {
      StartLoop(loop, []);
      end, rest := loop.RunLoop(limit);
      EndsForACause(end, loop, rest, limit);
    } else {
      end, rest := Thrown, [];
    }
    Conclude(end, loop, error, old(agent.messages), rest);
  }

  predicate MayContinue(messages: seq<Message>) {
    messages != [] && !messages[|messages| - 1].Assistant?
  }

  datatype Plan = Busy | NothingToContinue | Queued(messages: seq<Message>, skipInitialSteeringPoll: bool) | AsIs

  /** Queued messages take precedence over continuing when the last message is no input for a reply. */
  predicate LooksAtQueues(messages: seq<Message>) {
    messages == [] || messages[|messages| - 1].Assistant? || messages[|messages| - 1].Custom?
  }

  /** The batches a continuation takes from a queue: steering first, and follow-ups only without it. */
  ghost function FirstBatches(agent: Agent): (seq<Batch>, seq<Batch>)
    reads agent, agent.steeringQueue, agent.followUpQueue
  {
    var steering := Taken(agent.steeringQueue.batches, agent.steeringQueue.mode);
    var followUps := Taken(agent.followUpQueue.batches, agent.followUpQueue.mode);
    if !LooksAtQueues(agent.messages) then ([], [])
    else if steering != [] then (steering, [])
    else ([], followUps)
  }

  /** What to continue with: queued steering, else queued follow-ups, else the messages as they are. */
  method PlanContinuation(agent: Agent) returns (plan: Plan)
    requires agent.steeringQueue != agent.followUpQueue
    modifies agent.steeringQueue, agent.followUpQueue
    ensures plan == Busy <==> agent.active
    ensures plan == Busy ==> unchanged(agent.steeringQueue) && unchanged(agent.followUpQueue)
    ensures !agent.active ==>
              var (steering, followUps) := old(FirstBatches(agent));
              && agent.steeringQueue.drained == old(agent.steeringQueue.drained) + steering
              && agent.followUpQueue.drained == old(agent.followUpQueue.drained) + followUps
              && plan == if steering != [] then Queued(Flat(steering), true)
                         else if followUps != [] then Queued(Flat(followUps), false)
                         else if MayContinue(agent.messages) then AsIs else NothingToContinue
    ensures !plan.Queued? ==> agent.steeringQueue.batches == old(agent.steeringQueue.batches)
                              && agent.followUpQueue.batches == old(agent.followUpQueue.batches)
  {
    if agent.active {
      return Busy;
    }
    if LooksAtQueues(agent.messages) {
      var steering := agent.steeringQueue.Drain();
      if steering != [] {
        return Queued(steering, true);
      }
      var followUps := agent.followUpQueue.Drain();
      if followUps != [] {
        return Queued(followUps, false);
      }
      if agent.messages == [] || agent.messages[|agent.messages| - 1].Assistant? {
        return NothingToContinue;
      }
    }
    return AsIs;
  }

  datatype Continued = Refused(plan: Plan) | Ran(end: LoopEnd, loop: Loop)

  /**
   * Continuing takes whole batches from one queue, or none, makes them the prompts of a run,
   * and never starts a run that the loop would refuse. The prompts are among the run's new
   * messages, and the run accounts for everything that is drained after them.
   */
  method Continue(agent: Agent, host: Host, error: string, limit: nat) returns (r: Continued, ghost rest: seq<Message>)
    requires agent.steeringQueue != agent.followUpQueue && agent.Idle()
    modifies agent, agent.steeringQueue, agent.followUpQueue
    ensures r.Refused? <==>
              old(agent.active) || (old(FirstBatches(agent)) == ([], []) && !MayContinue(old(agent.messages)))
    ensures r.Refused? ==> agent.steeringQueue.batches == old(agent.steeringQueue.batches)
                           && agent.followUpQueue.batches == old(agent.followUpQueue.batches)
    ensures r.Refused? ==> unchanged(agent) && r.plan == if agent.active then Busy else NothingToContinue
    ensures r.Ran? ==>
              var (steering, followUps) := old(FirstBatches(agent));
              && r.loop.agent == agent && Settled(r.end, r.loop, old(agent.messages), rest)
              && r.loop.host == host && EndedFor(r.end, r.loop, limit) && r.loop.skips == (steering != [])
              && r.loop.prompts == Flat(steering + followUps)
              && r.loop.steeredBefore == old(agent.steeringQueue.drained) + steering
              && r.loop.followedBefore == old(agent.followUpQueue.drained) + followUps
    ensures
      var s, f := old(agent.steeringQueue.batches), old(agent.followUpQueue.batches);
      var last := if old(agent.messages) == [] then None else Some(old(agent.messages)[|old(agent.messages)| - 1]);
      var looks := last.None? || last.value.Assistant? || last.value.Custom?;
      && (r.Refused? <==> old(agent.active) || (s == f == [] && (last.None? || last.value.Assistant?)))
      && (r.Ran? ==>
            && r.loop.skips == (looks && s != [])
            && r.loop.prompts ==
                 (if looks && s != [] then (if old(agent.steeringQueue.mode) == All then Flat(s) else s[0])
                  else if looks && f != [] then (if old(agent.followUpQueue.mode) == All then Flat(f) else f[0])
                  else []))
  {
    var plan := PlanContinuation(agent);
    rest := [];
    match plan {
      case Queued(messages, skip) =>
        var end, loop;
        end, loop, rest := RunPromptMessages(agent, host, messages, skip, error, limit);
        r := Ran(end, loop);
      case AsIs =>
        var end, started, loop;
        end, started, loop, rest := RunContinuation(agent, host, error, limit);
        r := Ran(end, loop);
      case _ =>
        r := Refused(plan);
    }
    ghost var (steering, followUps) := old(FirstBatches(agent));
    assert steering == [] || followUps == [];
    assert steering + [] == steering && [] + followUps == followUps;
  }
}
