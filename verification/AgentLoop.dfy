/**
 * The agent loop: turns of queued messages, one streamed reply, and its tool results, until
 * nothing is left to do. Its two private arrays are related to what the Agent rebuilds from events.
 */
module AgentLoop {
  import opened AgentEvents
  import opened AgentHost
  import opened AgentState
  import opened MessageQueue
  import opened RunRecords
  import opened Sequences
  import opened ToolBatches
  import opened Wrappers

  // ---------------------------------------------------------------- the context and the phase

  /** The phase, unless a stream has started a second message before ending the first. */
  function Unless(extraStarts: nat, phase: Phase): Phase {
    if extraStarts == 0 then phase else Malformed
  }

  /** Whatever the messages do, a turn is open exactly when it should be. */
  function TurnPhaseOf(phase: Phase): TurnPhase {
    if phase == InTurn || phase == InMessage then Within else Between
  }

  /** The context is what it was plus the new messages, and one stale partial for every extra start. */
  predicate ContextGrew(base: seq<Message>, context: seq<Message>, newMessages: seq<Message>, extraStarts: nat) {
    && |context| == |base| + |newMessages| + extraStarts
    && (extraStarts == 0 ==> context == base + newMessages)
  }

  lemma ContextGrowsOn(base: seq<Message>, context: seq<Message>, newMessages: seq<Message>, extraStarts: nat,
                       more: seq<Message>)
    requires ContextGrew(base, context, newMessages, extraStarts)
    ensures ContextGrew(base, context + more, newMessages + more, extraStarts)
  {
    assert (base + newMessages) + more == base + (newMessages + more);
  }

  /** The context is the old one plus the new messages exactly when no stream started twice. */
  lemma ContextIsExact(base: seq<Message>, context: seq<Message>, newMessages: seq<Message>, extraStarts: nat)
    requires ContextGrew(base, context, newMessages, extraStarts)
    ensures context == base + newMessages <==> extraStarts == 0
  {
  }

  // ---------------------------------------------------------------- the environment's answers

  datatype Race<+T> = Value(value: T) | AbortError | Failure

  /** How a stream ended: without a terminal event, with one, or by an abort. */
  datatype Streamed = Exhausted | Terminal(message: AssistantMessage) | Cut

  datatype TurnEnding = Threw(interrupted: seq<Message>) | Halted | Completed(hasMoreToolCalls: bool)

  /** A hook asked to stop, an abort was seen, the reply failed, or every source was empty. */
  datatype Why = Asked | AbortSeen | ReplyFailed | NothingLeft

  datatype Next = EndRun(why: Why) | GoOn(pending: seq<Message>)

  datatype Step =
    | Escaped(interrupted: seq<Message>)
    | Stopped(why: Why)
    | Again(pending: seq<Message>, hasMoreToolCalls: bool)

  datatype LoopEnd = Returned(why: Why) | Thrown | CutOff

  /** An aborted reply keeps what was streamed so far. */
  function AbortedMessage(partial: Option<AssistantMessage>): AssistantMessage {
    AssistantMessage(if partial.Some? then partial.value.text else "",
                     if partial.Some? then partial.value.calls else [],
                     Aborted, Some("Request was aborted"))
  }

  /**
   * Unless aborted, a reply is what the stream says; else it may be its terminal message, or a
   * partial one cut short.
   */
  ghost predicate ReplyMay(script: Script, aborted: bool, r: Option<AssistantMessage>) {
    || r == SaidBy(script)
    || (aborted && r.Some?
        && (|| Final(r.value) in script.events
            || exists k :: 0 <= k <= |script.events| && r.value == AbortedMessage(PartialAfter(script.events[..k]))))
  }

  /** A reply that is cut short keeps the text and calls it had so far, and is marked as aborted. */
  lemma CutMessageKeepsItsText(partial: Option<AssistantMessage>)
    ensures
      var m := AbortedMessage(partial);
      && (if partial.Some? then m.text == partial.value.text && m.calls == partial.value.calls
          else m.text == "" && m.calls == [])
      && m.stop == Aborted && m.error == Some("Request was aborted")
  {
  }

  function AnswersAfter(host: Host, said: seq<Message>): nat -> ToolAnswer {
    (i: nat) => host.tool(said, i)
  }

  lemma OutcomesWereHeard(outcomes: seq<Finalized>, calls: seq<ToolCall>, host: Host, said: seq<Message>,
                          tools: map<string, ToolMode>, aborted: bool)
    requires OutcomesMay(outcomes, calls, AnswersAfter(host, said), tools, aborted)
    ensures !aborted ==> forall i :: 0 <= i < |outcomes| ==>
              outcomes[i] == OutcomeOf(calls[i], host.tool(said, i), tools)
  {
    forall i | 0 <= i < |outcomes| && !aborted
      ensures outcomes[i] == OutcomeOf(calls[i], host.tool(said, i), tools)
    {
      assert OutcomeMay(outcomes[i], calls[i], AnswersAfter(host, said)(i), tools, aborted);
    }
  }

  class Loop {
    const agent: Agent
    const host: Host
    var context: seq<Message>
    var newMessages: seq<Message>
    var skipSteeringPoll: bool
    /** The context and what had been drained when the run began, and the prompts. */
    ghost const base: seq<Message>
    ghost const prompts: seq<Message>
    ghost const steeredBefore: seq<Batch>
    ghost const followedBefore: seq<Batch>
    /** The first poll for steering is to be skipped. */
    ghost const skips: bool
    ghost var turns: seq<Turn>
    ghost var polls: seq<Poll>
    /** How often a stream started a message while its first one was open. */
    ghost var extraStarts: nat

    constructor (agent: Agent, host: Host, prompts: seq<Message>, skipSteeringPoll: bool)
      ensures this.agent == agent && this.host == host && this.skipSteeringPoll == skipSteeringPoll
      ensures base == context == agent.messages && newMessages == [] && this.prompts == prompts
      ensures steeredBefore == agent.steeringQueue.drained && followedBefore == agent.followUpQueue.drained
      ensures turns == [] && polls == [] && extraStarts == 0 && skips == skipSteeringPoll
    {
      this.agent, this.host, this.skipSteeringPoll, this.prompts := agent, host, skipSteeringPoll, prompts;
      base, context, newMessages := agent.messages, agent.messages, [];
      steeredBefore, followedBefore := agent.steeringQueue.drained, agent.followUpQueue.drained;
      turns, polls, extraStarts := [], [], 0;
      skips := skipSteeringPoll;
    }

    // -------------------------------------------------------------- invariants

    /**
     * The first poll may be one to skip, and the polls account for every batch drained from the
     * queues since the run began.
     */
    ghost predicate QueuesMatch()
      reads this`polls, this`skipSteeringPoll, agent.steeringQueue`drained, agent.followUpQueue`drained
    {
      && (polls == [] ==> skipSteeringPoll == skips)
      && agent.steeringQueue.drained == steeredBefore + PolledFrom(polls, Steering)
      && agent.followUpQueue.drained == followedBefore + PolledFrom(polls, FollowUp)
    }

    /** What the run was given. */
    ghost function World(): Setting {
      Setting(host, prompts, agent.tools, skips)
    }

    /** Unless aborted, everything polled was injected into a turn or is about to be, and the host was heard. */
    ghost predicate NothingLost(pending: seq<Message>)
      reads this`polls, this`turns, agent`aborted
    {
      !agent.aborted ==> Delivered(turns, polls, pending, World())
    }

    /** Unless aborted, there is a cause for another turn. */
    ghost predicate Due(pending: seq<Message>)
      reads this`polls, this`turns, agent`aborted
    {
      !agent.aborted ==> MayTurn(polls, turns, pending, World())
    }

    ghost predicate Allowed(source: Source)
      reads this`polls, this`turns, agent`aborted
    {
      !agent.aborted ==> MayPoll(polls, turns, source, World())
    }

    /** Between two turns the new messages are what the turns said. */
    lemma SaysSoFar()
      requires SameStory([])
      ensures newMessages == SoFar(turns, World())
    {
      assert prompts + Transcript(turns) + [] == prompts + Transcript(turns);
    }

    /** The array of new messages, the turns and the events tell the same story. */
    ghost predicate SameStory(interrupted: seq<Message>)
      reads this`newMessages, this`turns
      reads agent`messages, agent`streamingMessage, agent`pendingToolCalls, agent`errorMessage
      reads agent`start, agent`events, agent`watch, agent`failed
    {
      && agent.Valid()
      && newMessages == prompts + Transcript(turns) + interrupted
      && agent.watch.ended == newMessages
      && agent.watch.turns == Closings(turns)
    }

    ghost predicate Faithful(interrupted: seq<Message>)
      reads this`newMessages, this`turns, this`polls, this`skipSteeringPoll, agent`active
      reads agent`messages, agent`streamingMessage, agent`pendingToolCalls, agent`errorMessage
      reads agent`start, agent`events, agent`watch, agent`failed
      reads agent.steeringQueue`drained, agent.followUpQueue`drained
    {
      && agent.active
      && SameStory(interrupted)
      && AllAnswered(turns, agent.tools)
      && QueuesMatch()
    }

    /** The context has grown with the new messages, and the events are where they should be. */
    ghost predicate InStep(phase: Phase)
      reads this`context, this`newMessages, this`extraStarts, agent`watch, agent`pendingToolCalls
    {
      && ContextGrew(base, context, newMessages, extraStarts)
      && agent.watch.phase == Unless(extraStarts, phase)
      && agent.watch.turnPhase == TurnPhaseOf(phase)
      && agent.watch.closing == Open
      && agent.pendingToolCalls == {}
    }

    ghost predicate Balanced(pending: seq<Message>, phase: Phase)
      reads this`context, this`newMessages, this`extraStarts, this`turns, this`polls, this`skipSteeringPoll
      reads agent`active, agent`aborted
      reads agent`messages, agent`streamingMessage, agent`pendingToolCalls, agent`errorMessage
      reads agent`start, agent`events, agent`watch, agent`failed
      reads agent.steeringQueue`drained, agent.followUpQueue`drained
    {
      Faithful([]) && InStep(phase) && NothingLost(pending)
    }

    /** After an exception: only the injected messages of the broken turn are not part of a turn. */
    ghost predicate Broken(interrupted: seq<Message>)
      reads this, agent, agent.steeringQueue, agent.followUpQueue
    {
      Faithful(interrupted) && agent.watch.closing == Open && NothingLost(interrupted)
    }

    /** The reason for which a run ends is a good one. */
    ghost predicate MayEnd(why: Why)
      reads this`turns, this`polls, agent`aborted
    {
      match why
      case Asked => StopAsked(polls, turns, agent.aborted, World())
      case AbortSeen => agent.aborted
      case ReplyFailed => !Going(turns)
      case NothingLeft => LastWasEmpty(polls, Continuation, turns)
    }

    /** The reason for which a run throws: an abort, or a stream that fails. */
    ghost predicate MayThrow(interrupted: seq<Message>)
      reads this`turns, agent`aborted
    {
      agent.aborted || SaidBy(host.stream(SoFar(turns, World()) + interrupted)).None?
    }

    // -------------------------------------------------------------- polling

    /** What a poll of a queue gives: nothing the first time, if that one is to be skipped. */
    ghost function Waiting(source: Source): seq<Batch>
      requires source != Continuation
      reads this`skipSteeringPoll, agent.steeringQueue, agent.followUpQueue
    {
      if source == FollowUp then Taken(agent.followUpQueue.batches, agent.followUpQueue.mode)
      else if skipSteeringPoll then []
      else Taken(agent.steeringQueue.batches, agent.steeringQueue.mode)
    }

    /** Takes from a queue and records the poll; the first steering poll may be skipped. */
    method Drain(source: Source) returns (messages: seq<Message>, ghost batches: seq<Batch>)
      requires source != Continuation && QueuesMatch() && agent.steeringQueue != agent.followUpQueue
      modifies this`polls, this`skipSteeringPoll, agent.steeringQueue, agent.followUpQueue
      ensures QueuesMatch() && messages == Flat(batches) && polls == old(polls) + [Poll(source, batches, |turns|)]
      ensures source == Steering && old(skipSteeringPoll) ==>
                batches == [] && unchanged(agent.steeringQueue) && unchanged(agent.followUpQueue)
      ensures source == Steering && !old(skipSteeringPoll) ==>
                batches == Taken(old(agent.steeringQueue.batches), old(agent.steeringQueue.mode)) &&
                    unchanged(agent.followUpQueue)
      ensures source == FollowUp ==>
                batches == Taken(old(agent.followUpQueue.batches), old(agent.followUpQueue.mode)) &&
                    unchanged(agent.steeringQueue)
      ensures skipSteeringPoll == (old(skipSteeringPoll) && source != Steering)
    {
      messages, batches := [], [];
      if source == Steering && skipSteeringPoll {
        skipSteeringPoll := false;
      } else if source == Steering {
        batches := Taken(agent.steeringQueue.batches, agent.steeringQueue.mode);
        messages := agent.steeringQueue.Drain();
      } else {
        batches := Taken(agent.followUpQueue.batches, agent.followUpQueue.mode);
        messages := agent.followUpQueue.Drain();
      }
      RecordPoll(Poll(source, batches, |turns|));
    }

    ghost method RecordPoll(p: Poll)
      modifies this`polls
      ensures polls == old(polls) + [p]
      ensures steeredBefore + PolledFrom(polls, Steering) ==
                (steeredBefore + PolledFrom(old(polls), Steering)) + if p.source == Steering then p.batches else []
      ensures followedBefore + PolledFrom(polls, FollowUp) ==
                (followedBefore + PolledFrom(old(polls), FollowUp)) + if p.source == FollowUp then p.batches else []
    {
      OneMorePollFrom(steeredBefore, polls, p, Steering);
      OneMorePollFrom(followedBefore, polls, p, FollowUp);
      polls := polls + [p];
    }

    /** Polls unless aborted; an abort while waiting loses what was drained. */
    method PollUnlessAborted(source: Source) returns (r: Race<seq<Message>>, ghost batches: seq<Batch>)
      requires source != Continuation && QueuesMatch() && agent.steeringQueue != agent.followUpQueue
      modifies this`polls, this`skipSteeringPoll, agent`aborted, agent.steeringQueue, agent.followUpQueue
      ensures QueuesMatch() && (old(agent.aborted) ==> agent.aborted)
      ensures !r.Failure? && (r.AbortError? ==> agent.aborted)
      ensures !agent.aborted ==> r == Value(Flat(batches)) && polls == old(polls) + [Poll(source, batches, |turns|)]
      ensures !agent.aborted ==>
                batches == old(Waiting(source)) && skipSteeringPoll == (old(skipSteeringPoll) && source != Steering)
    {
      batches := [];
      if agent.aborted {
        return Value([]), batches;
      }
      var messages;
      messages, batches := Drain(source);
      agent.Await();
      var lost: bool := *;
      return if agent.aborted && lost then AbortError else Value(messages), batches;
    }

    /** The host's continuation policy; it is asked even when the run was aborted, but then not heard. */
    method PollContinuation() returns (r: Race<seq<Message>>, ghost batches: seq<Batch>)
      requires QueuesMatch()
      modifies this`polls, agent`aborted
      modifies agent.steeringQueue`batches, agent.steeringQueue`mode
      modifies agent.followUpQueue`batches, agent.followUpQueue`mode
      ensures QueuesMatch() && (old(agent.aborted) ==> agent.aborted)
      ensures !r.Failure? && (r.AbortError? ==> agent.aborted)
      ensures !agent.aborted ==>
                r == Value(Flat(batches)) && polls == old(polls) + [Poll(Continuation, batches, |turns|)]
      ensures Flat(batches) == host.continues(newMessages)
    {
      var messages := host.continues(newMessages);
      batches := [];
      if messages != [] {
        ghost var batch: Batch := messages;
        batches := [batch];
        assert Flat<Message>([batch]) == batch + Flat<Message>([]) == messages;
      }
      RecordPoll(Poll(Continuation, batches, |turns|));
      var before := agent.aborted;
      agent.Await();
      var lost: bool := *;
      return if before || (agent.aborted && lost) then AbortError else Value(messages), batches;
    }

    // -------------------------------------------------------------- streaming a reply

    /** Puts the final message in place of the partial one, or adds it. */
    method Settle(final: AssistantMessage, added: bool)
      requires agent.Valid() && agent.active && (added ==> context != [])
      modifies this`context, agent, agent.steeringQueue, agent.followUpQueue
      ensures agent.StillRunning()
      ensures context == (if added then old(context)[..|old(context)| - 1] else old(context)) + [Assistant(final)]
      ensures agent.watch == if added then See(old(agent.watch), MessageEnd(Assistant(final)))
                             else See(See(old(agent.watch), MessageStart(Assistant(final))),
                                      MessageEnd(Assistant(final)))
      ensures agent.pendingToolCalls == old(agent.pendingToolCalls)
    {
      hide ReduceAll, WatchAll;
      if added {
        context := context[|context| - 1 := Assistant(final)];
      } else {
        context := context + [Assistant(final)];
        agent.Emit(MessageStart(Assistant(final)));
      }
      agent.Emit(MessageEnd(Assistant(final)));
    }

    /** Where a stream stands: nothing shown yet, or one partial message at the end of the context. */
    ghost predicate Midway(added: bool, context0: seq<Message>, extra0: nat, watch0: Watch)
      reads this`context, this`extraStarts, agent`watch
    {
      && extraStarts >= extra0
      && |context| == |context0| + extraStarts - extra0 + (if added then 1 else 0)
      && (!added ==> context == context0 && extraStarts == extra0)
      && (extraStarts == extra0 && added ==> context[..|context0|] == context0)
      && agent.watch == watch0.(phase := Unless(extraStarts, if added then InMessage else InTurn))
    }

    /**
     * Shows a reply while it is streamed, and settles it; None is an exception other than an abort.
     * Unless aborted, the reply is what the host's stream says; after an abort it may be the terminal
     * message, or what was streamed so far.
     */
    method StreamReply() returns (r: Option<AssistantMessage>)
      requires agent.Valid() && agent.active && agent.watch.closing == Open
      requires agent.watch.phase == Unless(extraStarts, InTurn)
      modifies this`context, this`extraStarts, agent, agent.steeringQueue, agent.followUpQueue
      ensures agent.StillRunning() && agent.pendingToolCalls == old(agent.pendingToolCalls)
      ensures extraStarts >= old(extraStarts)
      ensures ReplyMay(host.stream(newMessages), agent.aborted, r)
      ensures r.None? ==> agent.watch.(phase := Malformed) == old(agent.watch).(phase := Malformed)
      ensures r.Some? ==>
                && |context| == |old(context)| + 1 + extraStarts - old(extraStarts)
                && (extraStarts == old(extraStarts) ==> context == old(context) + [Assistant(r.value)])
                && agent.watch == old(agent.watch).(ended := old(agent.watch).ended + [Assistant(r.value)],
                                                    phase := Unless(extraStarts, InTurn))
    {
      hide ReduceAll, WatchAll;
      ghost var context0, extra0, watch0 := context, extraStarts, agent.watch;
      var script := host.stream(newMessages);
      var how, partial := ReadStream(script, context0, extra0, watch0);
      if how.None? {
        return None;
      }
      r := FinalMessage(script, how.value, partial);
      if r.Some? {
        Conclude(r.value, partial.Some?, context0, extra0, watch0);
      }
    }

    method Conclude(final: AssistantMessage, added: bool, ghost context0: seq<Message>, ghost extra0: nat,
                    ghost watch0: Watch)
      requires agent.Valid() && agent.active && watch0.closing == Open && Midway(added, context0, extra0, watch0)
      modifies this`context, agent, agent.steeringQueue, agent.followUpQueue
      ensures agent.StillRunning() && agent.pendingToolCalls == old(agent.pendingToolCalls)
      ensures |context| == |context0| + 1 + extraStarts - extra0
      ensures extraStarts == extra0 ==> context == context0 + [Assistant(final)]
      ensures added ==> old(context) != [] && context == old(context)[..|old(context)| - 1] + [Assistant(final)]
      ensures extraStarts == old(extraStarts)
      ensures agent.watch == watch0.(ended := watch0.ended + [Assistant(final)], phase := Unless(extraStarts, InTurn))
    {
      hide ReduceAll, WatchAll;
      assert added && extraStarts == extra0 ==> context[..|context| - 1] == context0;
      Settle(final, added);
    }

    /** What reading a stream comes to: it fails, or how it ended, with the partial message at that point. */
    ghost predicate ReadMay(script: Script, how: Option<Streamed>, partial: Option<AssistantMessage>)
      reads agent`aborted
    {
      match how
      case None => SaidBy(script).None?
      case Some(Exhausted) =>
        script.opens && !script.breaks && partial == PartialAfter(script.events)
      case Some(Terminal(m)) => script.opens && Final(m) in script.events
      case Some(Cut) =>
        agent.aborted && exists k :: 0 <= k <= |script.events| && partial == PartialAfter(script.events[..k])
    }

    /** The partial message is what the Agent shows. */
    ghost predicate ShowsPartial(partial: Option<AssistantMessage>, shown0: Option<Message>)
      reads agent`streamingMessage
    {
      agent.streamingMessage == if partial.Some? then Some(Assistant(partial.value)) else shown0
    }

    /** A reply that has not started takes no updates; whatever is streamed is shown. */
    method ReadStream(script: Script, ghost context0: seq<Message>, ghost extra0: nat, ghost watch0: Watch)
      returns (how: Option<Streamed>, partial: Option<AssistantMessage>)
      requires agent.Valid() && agent.active && watch0.closing == Open && Midway(false, context0, extra0, watch0)
      modifies this`context, this`extraStarts, agent, agent.steeringQueue, agent.followUpQueue
      ensures agent.StillRunning() && agent.pendingToolCalls == old(agent.pendingToolCalls)
      ensures Midway(partial.Some?, context0, extra0, watch0)
      ensures ReadMay(script, how, partial) && ShowsPartial(partial, old(agent.streamingMessage))
    {
      hide ReduceAll, WatchAll;
      partial := None;
      assert script.events[..0] == [] && script.events[..|script.events|] == script.events;
      var response := OpenStream(!script.opens);
      if response.Failure? {
        return None, None;
      }
      if response.AbortError? {
        assert partial == PartialAfter(script.events[..0]);
        return Some(Cut), None;
      }
      for i := 0 to |script.events|
        invariant agent.StillRunning() && agent.pendingToolCalls == old(agent.pendingToolCalls)
        invariant Midway(partial.Some?, context0, extra0, watch0)
        invariant partial == PartialAfter(script.events[..i]) && ShowsPartial(partial, old(agent.streamingMessage))
        invariant forall e :: e in script.events[..i] ==> !e.Final?
      {
        assert script.events[..i + 1][..i] == script.events[..i];
        var step := RaceWithAbort(false);
        if step.AbortError? {
          return Some(Cut), partial;
        }
        match script.events[i] {
          case Start(message) =>
            StartPartial(message, partial.Some?, context0, extra0, watch0);
            partial := Some(message);
          case Delta(message) =>
            if partial.Some? {
              UpdatePartial(message, context0, extra0, watch0);
              partial := Some(message);
            }
          case Final(message) =>
            return Some(Terminal(message)), partial;
        }
      }
      var last := RaceWithAbort(script.breaks);
      if last.Failure? {
        return None, partial;
      }
      if last.AbortError? {
        assert partial == PartialAfter(script.events[..|script.events|]);
        return Some(Cut), partial;
      }
      return Some(Exhausted), partial;
    }

    /** What the stream's result says; after an abort, its terminal message or else the partial one. */
    method FinalMessage(script: Script, how: Streamed, partial: Option<AssistantMessage>)
      returns (final: Option<AssistantMessage>)
      requires ReadMay(script, Some(how), partial)
      modifies agent`aborted
      modifies agent.steeringQueue`batches, agent.steeringQueue`mode
      modifies agent.followUpQueue`batches, agent.followUpQueue`mode
      ensures old(agent.aborted) ==> agent.aborted
      ensures how.Cut? ==> final == Some(AbortedMessage(partial))
      ensures ReplyMay(script, agent.aborted, final)
    {
      assert script.events[..|script.events|] == script.events;
      if how.Cut? {
        return Some(AbortedMessage(partial));
      }
      var result := RaceWithAbort(script.result.None?);
      if result.Failure? {
        return None;
      }
      if result.AbortError? {
        return Some(if how.Terminal? then how.message else AbortedMessage(partial));
      }
      return script.result;
    }

    method StartPartial(message: AssistantMessage, ghost added: bool, ghost context0: seq<Message>, ghost extra0: nat,
                        ghost watch0: Watch)
      requires agent.Valid() && agent.active && watch0.closing == Open && Midway(added, context0, extra0, watch0)
      modifies this`context, this`extraStarts, agent, agent.steeringQueue, agent.followUpQueue
      ensures agent.StillRunning() && agent.pendingToolCalls == old(agent.pendingToolCalls)
      ensures context == old(context) + [Assistant(message)]
      ensures extraStarts == old(extraStarts) + if added then 1 else 0
      ensures agent.streamingMessage == Some(Assistant(message))
      ensures Midway(true, context0, extra0, watch0)
    {
      hide ReduceAll, WatchAll;
      context := context + [Assistant(message)];
      if added {
        extraStarts := extraStarts + 1;
      }
      agent.Emit(MessageStart(Assistant(message)));
    }

    method UpdatePartial(message: AssistantMessage, ghost context0: seq<Message>, ghost extra0: nat,
                         ghost watch0: Watch)
      requires agent.Valid() && agent.active && watch0.closing == Open && Midway(true, context0, extra0, watch0)
      modifies this`context, agent, agent.steeringQueue, agent.followUpQueue
      ensures agent.StillRunning() && agent.pendingToolCalls == old(agent.pendingToolCalls)
      ensures agent.streamingMessage == Some(Assistant(message))
      ensures Midway(true, context0, extra0, watch0)
    {
      hide ReduceAll, WatchAll;
      context := context[|context| - 1 := Assistant(message)];
      agent.Emit(MessageUpdate(Assistant(message)));
    }

    /** Transforming the context, converting it, finding the key and opening the stream. */
    method OpenStream(fails: bool) returns (r: Race<()>)
      modifies agent`aborted
      modifies agent.steeringQueue`batches, agent.steeringQueue`mode
      modifies agent.followUpQueue`batches, agent.followUpQueue`mode
      ensures (old(agent.aborted) ==> agent.aborted) && (r.AbortError? ==> agent.aborted)
      ensures if r.AbortError? then agent.aborted else r == if fails then Failure else Value(())
    {
      if agent.aborted {
        return AbortError;
      }
      r := RaceWithAbort(fails);
    }

    /** An awaited operation gives a value or fails, unless an abort settles first. */
    method RaceWithAbort(fails: bool) returns (r: Race<()>)
      modifies agent`aborted
      modifies agent.steeringQueue`batches, agent.steeringQueue`mode
      modifies agent.followUpQueue`batches, agent.followUpQueue`mode
      ensures (old(agent.aborted) ==> agent.aborted) && (r.AbortError? ==> agent.aborted)
      ensures if r.AbortError? then agent.aborted else r == if fails then Failure else Value(())
      ensures old(agent.aborted) ==> r.AbortError?
    {
      if agent.aborted {
        return AbortError;
      }
      agent.Await();
      var first: bool := *;
      return if agent.aborted && first then AbortError else if fails then Failure else Value(());
    }

    // -------------------------------------------------------------- turns

    /** Injects queued messages: events first, then both arrays. */
    method Inject(pending: seq<Message>)
      requires agent.Valid() && agent.active && InsideTurn(agent.watch)
      modifies this`context, this`newMessages, agent, agent.steeringQueue, agent.followUpQueue
      ensures agent.StillRunning() && agent.pendingToolCalls == old(agent.pendingToolCalls)
      ensures context == old(context) + pending && newMessages == old(newMessages) + pending
      ensures agent.watch == old(agent.watch).(ended := old(agent.watch).ended + pending)
    {
      hide ReduceAll, WatchAll;
      for i := 0 to |pending|
        invariant agent.StillRunning() && agent.pendingToolCalls == old(agent.pendingToolCalls)
        invariant context == old(context) + pending[..i] && newMessages == old(newMessages) + pending[..i]
        invariant agent.watch == old(agent.watch).(ended := old(agent.watch).ended + pending[..i])
      {
        Announce(pending[i]);
        assert pending[..i + 1] == pending[..i] + [pending[i]];
        context := context + [pending[i]];
        newMessages := newMessages + [pending[i]];
      }
      assert pending[..|pending|] == pending;
    }

    method Announce(m: Message)
      requires agent.Valid() && agent.active && InsideTurn(agent.watch)
      modifies agent, agent.steeringQueue, agent.followUpQueue
      ensures agent.StillRunning() && agent.pendingToolCalls == old(agent.pendingToolCalls)
      ensures agent.watch == old(agent.watch).(ended := old(agent.watch).ended + [m])
    {
      hide ReduceAll, WatchAll;
      WholeMessage(agent.watch, m, m);
      agent.Emit(MessageStart(m));
      agent.Emit(MessageEnd(m));
    }

    /** The first turn was already announced by the caller. */
    method BeginTurn(firstTurn: bool, ghost pending: seq<Message>)
      requires Balanced(pending, if firstTurn then InTurn else BetweenTurns) && Due(pending)
      modifies agent, agent.steeringQueue, agent.followUpQueue
      ensures agent.StillRunning() && Balanced(pending, InTurn) && Due(pending)
    {
      hide ReduceAll, WatchAll, Delivered, AllAnswered, Transcript, Closings, PolledFrom, MayTurn, MayPoll, StopAsked;
      if !firstTurn {
        agent.Emit(TurnStart);
      }
    }

    /** Injects, then streams the reply and keeps it. */
    method InjectAndStream(pending: seq<Message>) returns (reply: Option<AssistantMessage>)
      requires Balanced(pending, InTurn)
      modifies this`context, this`newMessages, this`extraStarts, agent, agent.steeringQueue, agent.followUpQueue
      ensures agent.StillRunning() && agent.watch.closing == Open
      ensures reply.None? ==> newMessages == old(newMessages) + pending && agent.watch.ended == newMessages
      ensures reply.Some? ==>
                && newMessages == old(newMessages) + pending + [Assistant(reply.value)]
                && agent.watch.ended == newMessages
                && agent.watch.phase == Unless(extraStarts, InTurn)
                && agent.watch.turnPhase == Within
                && agent.pendingToolCalls == {}
                && ContextGrew(base, context, newMessages, extraStarts)
      ensures agent.watch.turns == old(agent.watch).turns
      ensures ReplyMay(host.stream(old(newMessages) + pending), agent.aborted, reply)
    {
      hide ReduceAll, WatchAll, Delivered, ReplyMay;
      Inject(pending);
      ContextGrowsOn(base, old(context), old(newMessages), extraStarts, pending);
      reply := StreamReply();
      if reply.Some? {
        newMessages := newMessages + [Assistant(reply.value)];
      }
    }

    /** The tool calls of a reply, their results added to both arrays. */
    method ExecuteCalls(reply: AssistantMessage) returns (outcomes: seq<Finalized>, hasMoreToolCalls: bool)
      requires agent.Valid() && agent.active && InsideTurn(agent.watch) && agent.pendingToolCalls == {}
      modifies this`context, this`newMessages, agent, agent.steeringQueue, agent.followUpQueue
      ensures agent.StillRunning() && agent.pendingToolCalls == {}
      ensures context == old(context) + ResultsOf(outcomes) && newMessages == old(newMessages) + ResultsOf(outcomes)
      ensures agent.watch == old(agent.watch).(ended := old(agent.watch).ended + ResultsOf(outcomes))
      ensures AnswerInOrder(outcomes, reply.calls, agent.tools) && (|outcomes| < |reply.calls| ==> agent.aborted)
      ensures OutcomesMay(outcomes, reply.calls, AnswersAfter(host, old(newMessages)), agent.tools, agent.aborted)
      ensures hasMoreToolCalls <==> WantsMore(Turn([], reply, outcomes))
    {
      hide ReduceAll, WatchAll, AnswersAfter;
      if |reply.calls| == 0 {
        return [], false;
      }
      var terminate: bool;
      ghost var shown;
      outcomes, terminate, shown := ExecuteToolCalls(agent, reply.calls, AnswersAfter(host, newMessages));
      context := context + ResultsOf(outcomes);
      newMessages := newMessages + ResultsOf(outcomes);
      hasMoreToolCalls := !terminate;
    }

    /** A turn that is still open: what was injected, the reply, and the results so far. */
    ghost predicate Answering(t: Turn)
      reads this`context, this`newMessages, this`extraStarts, this`turns, this`polls, this`skipSteeringPoll
      reads agent`active, agent`aborted
      reads agent`messages, agent`streamingMessage, agent`pendingToolCalls, agent`errorMessage
      reads agent`start, agent`events, agent`watch, agent`failed
      reads agent.steeringQueue`drained, agent.followUpQueue`drained
    {
      && Faithful(Said(t)) && InStep(InTurn) && NothingLost(t.injected) && Due(t.injected)
      && (!agent.aborted ==> SaidBy(host.stream(SoFar(turns, World()) + t.injected)) == Some(t.reply))
    }

    /** A turn up to its reply: what was injected, the reply, and nothing in between. */
    method BeginReply(pending: seq<Message>) returns (reply: Option<AssistantMessage>)
      requires Balanced(pending, InTurn) && Due(pending)
      modifies this`context, this`newMessages, this`extraStarts, agent, agent.steeringQueue, agent.followUpQueue
      ensures agent.StillRunning()
      ensures if reply.None? then Broken(pending) && MayThrow(pending) else Answering(Turn(pending, reply.value, []))
    {
      hide ReduceAll, WatchAll, Delivered, AllAnswered, Transcript, Closings, PolledFrom, MayTurn, SaidBy;
      SaysSoFar();
      reply := InjectAndStream(pending);
      if reply.Some? {
        OpenTurnSoFar(prompts + Transcript(turns), pending, Assistant(reply.value));
        assert Said(Turn(pending, reply.value, [])) == pending + [Assistant(reply.value)] + [];
      } else {
        assert prompts + Transcript(turns) + [] + pending == prompts + Transcript(turns) + pending;
      }
    }

    method AnswerCalls(ghost pending: seq<Message>, reply: AssistantMessage)
      returns (outcomes: seq<Finalized>, hasMoreToolCalls: bool)
      requires Answering(Turn(pending, reply, []))
      modifies this`context, this`newMessages, agent, agent.steeringQueue, agent.followUpQueue
      ensures agent.StillRunning()
      ensures Answering(Turn(pending, reply, outcomes))
      ensures AnswerInOrder(outcomes, reply.calls, agent.tools) && (|outcomes| < |reply.calls| ==> agent.aborted)
      ensures !agent.aborted ==>
                forall i :: 0 <= i < |outcomes| ==>
                  var said := SoFar(turns, World()) + pending + [Assistant(reply)];
                  outcomes[i] == OutcomeOf(reply.calls[i], host.tool(said, i), agent.tools)
      ensures hasMoreToolCalls <==> WantsMore(Turn(pending, reply, outcomes))
    {
      hide ReduceAll, WatchAll, Delivered, AllAnswered, Transcript, Closings, PolledFrom, MayTurn, SaidBy, OutcomeOf;
      assert newMessages == SoFar(turns, World()) + pending + [Assistant(reply)] by {
        assert Said(Turn(pending, reply, [])) == pending + [Assistant(reply)] + [];
        OpenTurnSoFar(prompts + Transcript(turns), pending, Assistant(reply));
        assert prompts + Transcript(turns) + [] == prompts + Transcript(turns);
      }
      outcomes, hasMoreToolCalls := ExecuteCalls(reply);
      ContextGrowsOn(base, old(context), old(newMessages), extraStarts, ResultsOf(outcomes));
      assert prompts + Transcript(turns) + Said(Turn(pending, reply, [])) + ResultsOf(outcomes)
          == prompts + Transcript(turns) + Said(Turn(pending, reply, outcomes));
      OutcomesWereHeard(outcomes, reply.calls, host, old(newMessages), agent.tools, agent.aborted);
    }

    /** Closes the turn: what it was made of is now part of the record. */
    method EndTurn(ghost t: Turn, reply: AssistantMessage, results: seq<Message>)
      requires Answering(t) && t.reply == reply && results == ResultsOf(t.outcomes)
      requires AnswerInOrder(t.outcomes, reply.calls, agent.tools) && (!agent.aborted ==> Complete(t))
      requires !agent.aborted ==> TurnHeard(t, SoFar(turns, World()), World())
      modifies this`turns, agent, agent.steeringQueue, agent.followUpQueue
      ensures agent.StillRunning() && Balanced([], BetweenTurns)
      ensures turns == old(turns) + [t]
    {
      hide ReduceAll, WatchAll, Delivered, AllAnswered, Transcript, Closings, PolledFrom, MayTurn, TurnHeard, SaidBy;
      agent.Emit(TurnEnd(reply, results));
      RecordTurn(t);
    }

    ghost method RecordTurn(t: Turn)
      requires agent.Valid() && agent.active
      requires AllAnswered(turns, agent.tools) && AnswerInOrder(t.outcomes, t.reply.calls, agent.tools)
      requires !agent.aborted ==> Complete(t) && TurnHeard(t, SoFar(turns, World()), World())
      requires newMessages == prompts + Transcript(turns) + Said(t)
      requires agent.watch.ended == newMessages
      requires agent.watch.turns == Closings(turns) + [(t.reply, ResultsOf(t.outcomes))]
      requires QueuesMatch() && NothingLost(t.injected) && Due(t.injected)
      modifies this`turns
      ensures Faithful([]) && NothingLost([])
      ensures turns == old(turns) + [t]
    {
      hide TurnHeard, MayTurn, Delivered, SoFar;
      OneMoreTurn(turns, t);
      OneMoreTurnAfter(prompts, turns, t);
      AnsweredOneMore(turns, t, agent.tools);
      if !agent.aborted {
        DeliverTurn(turns, polls, t, World());
      }
      turns := turns + [t];
    }

    /** After the reply: the tool calls, unless the reply itself failed, and turn_end. */
    method FinishTurn(ghost pending: seq<Message>, reply: AssistantMessage) returns (t: TurnEnding)
      requires Answering(Turn(pending, reply, []))
      modifies this, agent, agent.steeringQueue, agent.followUpQueue
      ensures agent.StillRunning() && Balanced([], BetweenTurns)
      ensures |turns| == old(|turns|) + 1 && turns[|turns| - 1].reply == reply && turns[|turns| - 1].injected == pending
      ensures !t.Threw? && (t.Halted? <==> reply.stop in {Failed, Aborted})
      ensures t.Completed? ==> Going(turns) && (t.hasMoreToolCalls <==> WantsMore(turns[|turns| - 1]))
      ensures t.Halted? ==> MayEnd(ReplyFailed)
    {
      hide ReduceAll, WatchAll, Delivered, AllAnswered, Transcript, Closings, PolledFrom, MayTurn, SaidBy, OutcomeOf;
      var halted := reply.stop == Failed || reply.stop == Aborted;
      var outcomes, hasMoreToolCalls := [], false;
      if !halted {
        outcomes, hasMoreToolCalls := AnswerCalls(pending, reply);
      }
      EndTurn(Turn(pending, reply, outcomes), reply, ResultsOf(outcomes));
      return if halted then Halted else Completed(hasMoreToolCalls);
    }

    /** One iteration of the inner loop, up to and including turn_end. */
    method RunTurn(pending: seq<Message>, firstTurn: bool) returns (t: TurnEnding)
      requires Balanced(pending, if firstTurn then InTurn else BetweenTurns) && Due(pending)
      modifies this, agent, agent.steeringQueue, agent.followUpQueue
      ensures agent.StillRunning()
      ensures if t.Threw? then Broken(t.interrupted) && MayThrow(t.interrupted) else Balanced([], BetweenTurns)
      ensures |turns| == old(|turns|) + if t.Threw? then 0 else 1
      ensures !t.Threw? ==> (t.Halted? <==> !Going(turns))
      ensures t.Completed? ==> (t.hasMoreToolCalls <==> WantsMore(turns[|turns| - 1]))
      ensures t.Halted? ==> MayEnd(ReplyFailed)
    {
      hide ReduceAll, WatchAll, Delivered, AllAnswered, Transcript, Closings, PolledFrom, MayTurn, MayPoll, SaidBy;
      if agent.aborted {
        return Threw([]);
      }
      BeginTurn(firstTurn, pending);
      var reply := BeginReply(pending);
      if reply.None? {
        return Threw(pending);
      }
      t := FinishTurn(pending, reply.value);
    }

    // -------------------------------------------------------------- between turns

    /** The hook after a turn; an abort while it is awaited counts as a stop. */
    method StopAfterTurn() returns (why: Option<Why>)
      modifies agent`aborted
      modifies agent.steeringQueue`batches, agent.steeringQueue`mode
      modifies agent.followUpQueue`batches, agent.followUpQueue`mode
      ensures old(agent.aborted) ==> agent.aborted
      ensures match why
              case None => !host.stopsAfter(newMessages)
              case Some(Asked) => host.stopsAfter(newMessages)
              case Some(w) => w == AbortSeen && agent.aborted
    {
      var stop := host.stopsAfter(newMessages);
      var answer := RaceWithAbort(false);
      if answer.AbortError? {
        return Some(AbortSeen);
      }
      return if stop then Some(Asked) else None;
    }

    /** The hook before another turn. */
    method StopBeforeTurn(place: Place) returns (stop: bool)
      ensures stop == host.stopsBefore(newMessages, place)
    {
      stop := host.stopsBefore(newMessages, place);
    }

    /** Both hooks that may stop the run after a turn. */
    method AskToStop() returns (why: Option<Why>)
      requires Balanced([], BetweenTurns) && turns != []
      modifies agent`aborted
      modifies agent.steeringQueue`batches, agent.steeringQueue`mode
      modifies agent.followUpQueue`batches, agent.followUpQueue`mode
      ensures (old(agent.aborted) ==> agent.aborted) && Balanced([], BetweenTurns)
      ensures match why
              case None => Allowed(Steering)
              case Some(w) => MayEnd(w)
    {
      hide ReduceAll, WatchAll, Delivered, AllAnswered, Transcript, Closings, PolledFrom, MayTurn;
      SaysSoFar();
      why := StopAfterTurn();
      if why.None? {
        var stop := StopBeforeTurn(AfterHook);
        if stop {
          why := Some(Asked);
        }
      }
    }

    /** Asks whether to stop, then for steering messages; a non-empty answer owns the boundary. */
    method AfterTurn(ghost wantsMore: bool) returns (next: Next)
      requires Balanced([], BetweenTurns) && turns != [] && Going(turns) &&
                (wantsMore <==> WantsMore(turns[|turns| - 1]))
      modifies this`polls, this`skipSteeringPoll, agent`aborted, agent.steeringQueue, agent.followUpQueue
      ensures old(agent.aborted) ==> agent.aborted
      ensures Balanced(if next.GoOn? then next.pending else [], BetweenTurns)
      ensures next.GoOn? && (wantsMore || next.pending != []) ==> Due(next.pending)
      ensures next == GoOn([]) && !wantsMore ==> Rested()
      ensures next.EndRun? ==> MayEnd(next.why)
    {
      hide ReduceAll, WatchAll, Delivered, AllAnswered, Transcript, Closings, PolledFrom, MayTurn, MayPoll, StopAsked;
      if agent.aborted {
        return EndRun(AbortSeen);
      }
      var why := AskToStop();
      if why.Some? {
        return EndRun(why.value);
      }
      next := Steer(wantsMore);
    }

    /**
     * Nothing is left of this round: the last turn wants no more, steering was polled in vain, and
     * no hook asked to stop.
     */
    ghost predicate Rested()
      reads this`polls, this`turns, agent`aborted
    {
      && turns != [] && Going(turns) && !WantsMore(turns[|turns| - 1])
      && (!agent.aborted ==>
            LastWasEmpty(polls, Steering, turns) && !host.stopsBefore(SoFar(turns, World()), AfterSteering))
    }

    method Steer(ghost wantsMore: bool) returns (next: Next)
      requires Balanced([], BetweenTurns) && turns != [] && Going(turns) &&
                (wantsMore <==> WantsMore(turns[|turns| - 1]))
      requires Allowed(Steering)
      modifies this`polls, this`skipSteeringPoll, agent`aborted, agent.steeringQueue, agent.followUpQueue
      ensures old(agent.aborted) ==> agent.aborted
      ensures Balanced(if next.GoOn? then next.pending else [], BetweenTurns)
      ensures next.GoOn? && (wantsMore || next.pending != []) ==> Due(next.pending)
      ensures next == GoOn([]) && !wantsMore ==> Rested()
      ensures next.EndRun? ==> MayEnd(next.why)
      ensures !agent.aborted && next.GoOn? ==> next.pending == Flat(old(Waiting(Steering)))
    {
      hide ReduceAll, WatchAll, Delivered, AllAnswered, Transcript, Closings, PolledFrom, MayPoll;
      SaysSoFar();
      var steering := TakePolled(Steering, BetweenTurns);
      if steering.AbortError? {
        return EndRun(AbortSeen);
      }
      if steering.value == [] {
        var stop := StopBeforeTurn(AfterSteering);
        if stop {
          return EndRun(Asked);
        }
      }
      return GoOn(steering.value);
    }

    /** A first poll that is to be skipped gives nothing, and only steering is polled first. */
    lemma SkipsFirst(source: Source)
      requires source != Continuation && Allowed(source) && (polls == [] ==> skipSteeringPoll == skips)
      ensures !agent.aborted && polls == [] && skips ==> Waiting(source) == []
    {
    }

    lemma ContinuationIsNotFirst()
      requires Allowed(Continuation)
      ensures !agent.aborted ==> polls != []
    {
    }

    /** A queue poll between turns: what it returns is now pending. */
    method TakePolled(source: Source, ghost phase: Phase) returns (r: Race<seq<Message>>)
      requires source != Continuation
      requires Balanced([], phase) && Allowed(source)
      modifies this`polls, this`skipSteeringPoll, agent`aborted, agent.steeringQueue, agent.followUpQueue
      ensures old(agent.aborted) ==> agent.aborted
      ensures !r.Failure? && (r.AbortError? ==> agent.aborted)
      ensures Balanced(if r.Value? then r.value else [], phase)
      ensures !agent.aborted ==> r == Value(Flat(old(Waiting(source))))
      ensures !agent.aborted ==>
                polls == old(polls) + [Poll(source, old(Waiting(source)), |turns|)]
                && (r.value == [] ==> LastWasEmpty(polls, source, turns))
                && (Steered(old(polls), |turns|) || source == Steering ==> Steered(polls, |turns|))
    {
      hide ReduceAll, WatchAll, AllAnswered, Transcript, Closings, PolledFrom, Delivered, Flat, MayPoll, MayTurn,
          Waiting;
      hide Steered, LastWasEmpty;
      SkipsFirst(source);
      ghost var batches;
      r, batches := PollUnlessAborted(source);
      if !agent.aborted {
        AfterPoll(turns, old(polls), Poll(source, batches, |turns|), World());
      }
    }

    /** The host's continuation policy, asked last; what it returns is now pending. */
    method TakeContinuation() returns (r: Race<seq<Message>>)
      requires Balanced([], BetweenTurns) && Allowed(Continuation)
      modifies this`polls, agent`aborted
      modifies agent.steeringQueue`batches, agent.steeringQueue`mode
      modifies agent.followUpQueue`batches, agent.followUpQueue`mode
      ensures old(agent.aborted) ==> agent.aborted
      ensures !r.Failure? && (r.AbortError? ==> agent.aborted)
      ensures Balanced(if r.Value? then r.value else [], BetweenTurns)
      ensures !agent.aborted ==> r == Value(host.continues(newMessages))
      ensures r == Value([]) && !agent.aborted ==> MayEnd(NothingLeft)
      ensures !agent.aborted && Steered(old(polls), |turns|) ==> Steered(polls, |turns|)
    {
      hide ReduceAll, WatchAll, AllAnswered, Transcript, Closings, PolledFrom, Delivered, Flat, MayPoll, MayTurn,
          StopAsked;
      hide Steered, LastWasEmpty, SoFar;
      ContinuationIsNotFirst();
      SaysSoFar();
      ghost var batches;
      r, batches := PollContinuation();
      if !agent.aborted {
        AfterPoll(turns, old(polls), Poll(Continuation, batches, |turns|), World());
      }
    }

    /** Nothing left to do: follow-ups, and only without them continuations, may start another round. */
    method AtRest() returns (next: Next)
      requires Balanced([], BetweenTurns) && Rested()
      modifies this`polls, this`skipSteeringPoll, agent`aborted, agent.steeringQueue, agent.followUpQueue
      ensures old(agent.aborted) ==> agent.aborted
      ensures Balanced(if next.GoOn? then next.pending else [], BetweenTurns)
      ensures next.GoOn? ==> next.pending != [] && Due(next.pending)
      ensures next.EndRun? ==> MayEnd(next.why)
    {
      hide ReduceAll, WatchAll, Delivered, AllAnswered, Transcript, Closings, PolledFrom;
      SaysSoFar();
      var stop := StopBeforeTurn(BeforeFollowUps);
      if stop {
        return EndRun(Asked);
      }
      assert !agent.aborted ==> Steered(polls, |turns|);
      var followUps := TakePolled(FollowUp, BetweenTurns);
      if followUps.AbortError? {
        return EndRun(AbortSeen);
      }
      if followUps.value != [] {
        return GoOn(followUps.value);
      }
      stop := StopBeforeTurn(BeforeContinuations);
      if stop {
        return EndRun(Asked);
      }
      var continuations := TakeContinuation();
      if continuations.AbortError? {
        return EndRun(AbortSeen);
      }
      if continuations.value != [] {
        return GoOn(continuations.value);
      }
      return EndRun(if agent.aborted then AbortSeen else NothingLeft);
    }

    // -------------------------------------------------------------- the whole loop

    /** A run that returned: agent_end came last, with the new messages, nothing is pending, and it was time to end. */
    ghost predicate Finished(why: Why)
      reads this, agent, agent.steeringQueue, agent.followUpQueue
    {
      && Faithful([])
      && ContextGrew(base, context, newMessages, extraStarts)
      && agent.watch.phase == Unless(extraStarts, AfterRun)
      && agent.watch.turnPhase == Between
      && agent.watch.closing == Closed
      && agent.events != [] && agent.events[|agent.events| - 1] == AgentEnd(newMessages)
      && agent.pendingToolCalls == {}
      && NothingLost([]) && MayEnd(why)
    }

    method End(ghost why: Why)
      requires Balanced([], BetweenTurns) && MayEnd(why)
      modifies agent, agent.steeringQueue, agent.followUpQueue
      ensures agent.Unfinished() && Finished(why)
    {
      hide ReduceAll, WatchAll, Delivered, AllAnswered, Transcript, Closings, PolledFrom, MayTurn, MayPoll;
      agent.Emit(AgentEnd(newMessages));
    }

    /** One iteration of the inner loop: a turn and what comes after it. */
    method TakeTurn(messages: seq<Message>, firstTurn: bool) returns (step: Step)
      requires Balanced(messages, if firstTurn then InTurn else BetweenTurns) && Due(messages)
      modifies this, agent, agent.steeringQueue, agent.followUpQueue
      ensures agent.Unfinished()
      ensures match step
              case Escaped(interrupted) => Broken(interrupted) && MayThrow(interrupted)
              case Stopped(why) => Balanced([], BetweenTurns) && MayEnd(why)
              case Again(pending, more) =>
                && Balanced(pending, BetweenTurns)
                && (if more || pending != [] then Due(pending) else Rested())
      ensures |turns| == old(|turns|) + if step.Escaped? then 0 else 1
    {
      hide ReduceAll, WatchAll, Delivered, AllAnswered, Transcript, Closings, PolledFrom, MayTurn, MayPoll,
          StopAsked, SaidBy;
      var t := RunTurn(messages, firstTurn);
      if t.Threw? {
        return Escaped(t.interrupted);
      }
      if t.Halted? {
        return Stopped(ReplyFailed);
      }
      var next := AfterTurn(t.hasMoreToolCalls);
      if next.EndRun? {
        return Stopped(next.why);
      }
      return Again(next.pending, t.hasMoreToolCalls);
    }

    /**
     * The inner loop: turns until no tool calls and no messages are left. A value in `end` ends
     * the run; otherwise nothing is pending, and the last poll for steering messages was empty.
     */
    method RunRound(messages: seq<Message>, first: bool, limit: nat)
      returns (end: Option<LoopEnd>, left: nat, ghost rest: seq<Message>)
      requires Balanced(messages, if first then InTurn else BetweenTurns) && Due(messages)
      modifies this, agent, agent.steeringQueue, agent.followUpQueue
      ensures agent.Unfinished()
      ensures if end.Some? then Outcome(end.value, rest) else left < limit && Balanced([], BetweenTurns) && Rested()
      ensures |turns| + left == old(|turns|) + limit || end == Some(Thrown)
      ensures end == Some(CutOff) ==> left == 0
    {
      hide ReduceAll, WatchAll, Delivered, AllAnswered, Transcript, Closings, PolledFrom, MayTurn, MayPoll,
          StopAsked, SaidBy, Rested;
      left := limit;
      var pending, firstTurn, hasMoreToolCalls := messages, first, true;
      while hasMoreToolCalls || pending != []
        invariant agent.Unfinished()
        invariant Balanced(pending, if firstTurn then InTurn else BetweenTurns)
        invariant if hasMoreToolCalls || pending != [] then Due(pending) else Rested()
        invariant left < limit || (left == limit && hasMoreToolCalls)
        invariant !hasMoreToolCalls ==> !firstTurn
        invariant |turns| + left == old(|turns|) + limit
        decreases left
      {
        if left == 0 {
          return Some(CutOff), left, pending;
        }
        left := left - 1;
        var step := TakeTurn(pending, firstTurn);
        firstTurn := false;
        if step.Escaped? {
          return Some(Thrown), left, step.interrupted;
        }
        if step.Stopped? {
          End(step.why);
          return Some(Returned(step.why)), left, [];
        }
        pending, hasMoreToolCalls := step.pending, step.hasMoreToolCalls;
      }
      return None, left, [];
    }

    /** What is known when the loop ends, and what was still to be said. */
    ghost predicate Outcome(end: LoopEnd, rest: seq<Message>)
      reads this, agent, agent.steeringQueue, agent.followUpQueue
    {
      match end
      case Returned(why) => Finished(why)
      case Thrown => Broken(rest) && MayThrow(rest)
      case CutOff => Balanced(rest, InTurn) || Balanced(rest, BetweenTurns)
    }

    /** A round and what comes after it; without an `end`, what the next round begins with. */
    method RoundAndRest(messages: seq<Message>, first: bool, limit: nat)
      returns (end: Option<LoopEnd>, pending: seq<Message>, left: nat, ghost rest: seq<Message>)
      requires Balanced(messages, if first then InTurn else BetweenTurns) && Due(messages)
      modifies this, agent, agent.steeringQueue, agent.followUpQueue
      ensures agent.Unfinished()
      ensures if end.Some? then Outcome(end.value, rest)
              else left < limit && Balanced(pending, BetweenTurns) && Due(pending)
      ensures |turns| + left == old(|turns|) + limit || end == Some(Thrown)
      ensures end == Some(CutOff) ==> left == 0
    {
      hide ReduceAll, WatchAll, Delivered, AllAnswered, Transcript, Closings, PolledFrom, MayTurn, MayPoll,
          StopAsked, SaidBy, Rested;
      if agent.aborted {
        return Some(Thrown), [], limit, [];
      }
      end, left, rest := RunRound(messages, first, limit);
      pending := [];
      if end.None? {
        var next := AtRest();
        if next.EndRun? {
          End(next.why);
          return Some(Returned(next.why)), [], left, [];
        }
        pending := next.pending;
      }
    }

    /**
     * Rounds until nothing is left to do, the run is stopped or aborted, an exception escapes, or
     * `limit` turns have been taken. Without an abort, a failed reply or a hook that asks to stop,
     * a run returns only when its last turn wants no more and all three sources had nothing.
     */
    method RunLoop(limit: nat) returns (end: LoopEnd, ghost rest: seq<Message>)
      requires Balanced([], InTurn) && turns == []
      modifies this, agent, agent.steeringQueue, agent.followUpQueue
      ensures agent.Unfinished() && Outcome(end, rest)
      ensures end == CutOff ==> |turns| == limit
      ensures end.Returned? && !agent.aborted && Going(turns) && Silent(host, newMessages) ==>
                NothingLeftToDo(turns, polls, World())
    {
      hide ReduceAll, WatchAll, Delivered, AllAnswered, Transcript, Closings, PolledFrom, MayTurn, MayPoll,
          StopAsked, SaidBy;
      var firstTurn, left := true, limit;
      FirstMayPoll();
      var polled := TakePolled(Steering, InTurn);
      if polled.AbortError? {
        return Thrown, [];
      }
      var pending := polled.value;
      FirstIsDue(pending);
      while true
        invariant agent.Unfinished()
        invariant Balanced(pending, if firstTurn then InTurn else BetweenTurns) && Due(pending)
        invariant |turns| + left == limit
        decreases left
      {
        var ended: Option<LoopEnd>;
        ended, pending, left, rest := RoundAndRest(pending, firstTurn, left);
        if ended.Some? {
          CompleteUnlessStopped(ended.value, rest);
          return ended.value, rest;
        }
        firstTurn := false;
      }
    }

    lemma FirstMayPoll()
      requires turns == []
      ensures Allowed(Steering)
    {
    }

    /** The first turn follows a poll for steering. */
    lemma FirstIsDue(pending: seq<Message>)
      requires turns == [] && (!agent.aborted ==> Steered(polls, 0))
      ensures Due(pending)
    {
    }

    lemma CompleteUnlessStopped(end: LoopEnd, rest: seq<Message>)
      requires Outcome(end, rest)
      ensures end.Returned? && !agent.aborted && Going(turns) && Silent(host, newMessages) ==>
                NothingLeftToDo(turns, polls, World())
    {
      hide ReduceAll, WatchAll, AllAnswered, Transcript, Closings, PolledFrom, InWholeTurns, TurnsDue, AllHeard,
          InOrder;
      if end.Returned? && !agent.aborted && Going(turns) && Silent(host, newMessages) {
        SaysSoFar();
        EndsWithNothingLeft(turns, polls, World());
      }
    }
  }
}
