/**
 * The Agent: its transcript and flags are rebuilt from the events of the run alone. Whenever a
 * run waits, the outside may queue or withdraw messages, switch queue modes, and abort.
 */
module AgentState {
  import opened AgentEvents
  import opened MessageQueue
  import opened Wrappers

  datatype ToolMode = Parallel | Sequential

  /** A state agrees with the one rebuilt from events, up to an error message set by an exception. */
  predicate Rebuilt(shown: View, rebuilt: View, failed: bool) {
    && shown.messages == rebuilt.messages && shown.streaming == rebuilt.streaming && shown.pending == rebuilt.pending
    && (failed || shown.error == rebuilt.error)
  }

  lemma ReducingKeepsRebuilt(shown: View, rebuilt: View, failed: bool, e: Event)
    requires Rebuilt(shown, rebuilt, failed)
    ensures Rebuilt(Reduce(shown, e), Reduce(rebuilt, e), failed)
  {
  }

  lemma RecordingKeepsRebuilt(shown: View, start: View, events: seq<Event>, failed: bool, e: Event)
    requires Rebuilt(shown, Reduce(ReduceAll(start, events), e), failed)
    ensures Rebuilt(shown, ReduceAll(start, events + [e]), failed)
    ensures WatchAll(events + [e]) == See(WatchAll(events), e)
  {
    WatchOneMore(start, events, e);
  }

  class Agent {
    var messages: seq<Message>
    var streamingMessage: Option<Message>
    var pendingToolCalls: set<string>
    var errorMessage: Option<string>
    var isStreaming: bool
    /** There is an active run, and whether its controller was aborted. */
    var active: bool
    var aborted: bool
    const steeringQueue: PendingMessageQueue
    const followUpQueue: PendingMessageQueue
    const tools: map<string, ToolMode>
    const toolExecution: ToolMode

    /** The state when the run began, the events since then, and what they say. */
    ghost var start: View
    ghost var events: seq<Event>
    ghost var watch: Watch
    /** An exception has set the error message behind the events' back. */
    ghost var failed: bool

    ghost function Shown(): View
      reads this`messages, this`streamingMessage, this`pendingToolCalls, this`errorMessage
    {
      View(messages, streamingMessage, pendingToolCalls, errorMessage)
    }

    ghost predicate Valid()
      reads this`messages, this`streamingMessage, this`pendingToolCalls, this`errorMessage
      reads this`start, this`events, this`watch, this`failed
    {
      && steeringQueue != followUpQueue
      && Rebuilt(Shown(), ReduceAll(start, events), failed)
      && watch == WatchAll(events)
    }

    constructor (mode: ToolMode, tools: map<string, ToolMode>)
      ensures Valid() && !active && Idle() && messages == []
      ensures fresh(steeringQueue) && fresh(followUpQueue)
    {
      messages, streamingMessage, pendingToolCalls, errorMessage := [], None, {}, None;
      isStreaming, active, aborted := false, false, false;
      steeringQueue := new PendingMessageQueue(OneAtATime);
      followUpQueue := new PendingMessageQueue(OneAtATime);
      this.tools, toolExecution := tools, mode;
      start, events, watch, failed := View([], None, {}, None), [], WatchAll([]), false;
    }

    /** Nothing of a run is left when none is active. */
    predicate Idle()
      reads this
    {
      !active ==> !isStreaming && streamingMessage == None && pendingToolCalls == {}
    }

    /** The same run goes on; an abort is never taken back, and nobody else drains the queues. */
    twostate predicate StillRunning()
      reads this, steeringQueue, followUpQueue
    {
      && Valid() && active && start == old(start) && isStreaming == old(isStreaming) && failed == old(failed)
      && (old(aborted) ==> aborted)
      && steeringQueue.drained == old(steeringQueue.drained)
      && followUpQueue.drained == old(followUpQueue.drained)
    }

    /** The same run goes on, whatever the queues gave. */
    twostate predicate Unfinished()
      reads this
    {
      && Valid() && active && start == old(start) && isStreaming == old(isStreaming) && failed == old(failed)
      && (old(aborted) ==> aborted)
    }

    /** Anything the outside may do while the run waits. */
    method Await()
      modifies this`aborted
      modifies steeringQueue`batches, steeringQueue`mode, followUpQueue`batches, followUpQueue`mode
      ensures old(aborted) ==> aborted
    {
      var abort: bool := *;
      aborted := aborted || abort;
      steeringQueue.batches := *;
      steeringQueue.mode := *;
      followUpQueue.batches := *;
      followUpQueue.mode := *;
    }

    /** Reduces the state for an event, then waits for the listeners. */
    method ProcessEvents(e: Event)
      requires Valid() && active
      modifies this, steeringQueue, followUpQueue
      ensures StillRunning()
      ensures events == old(events) + [e] && watch == See(old(watch), e)
      ensures Shown() == Reduce(old(Shown()), e)
      ensures messages == old(messages) + if e.MessageEnd? then [e.message] else []
      ensures streamingMessage == if e.MessageStart? || e.MessageUpdate? then Some(e.message)
                                  else if e.MessageEnd? || e.AgentEnd? then None else old(streamingMessage)
      ensures pendingToolCalls == if e.ToolStart? then old(pendingToolCalls) + {e.callId}
                                  else if e.ToolEnd? then old(pendingToolCalls) - {e.callId} else old(pendingToolCalls)
      ensures errorMessage == if e.TurnEnd? && e.reply.error.Some? && e.reply.error.value != "" then e.reply.error
                              else old(errorMessage)
    {
      hide ReduceAll, WatchAll;
      Apply(e);
      Await();
    }

    /** An event that is not about a tool leaves the pending calls alone. */
    method Emit(e: Event)
      requires Valid() && active && !e.ToolStart? && !e.ToolEnd?
      modifies this, steeringQueue, followUpQueue
      ensures StillRunning() && pendingToolCalls == old(pendingToolCalls)
      ensures events == old(events) + [e] && watch == See(old(watch), e)
      ensures streamingMessage == if e.MessageStart? || e.MessageUpdate? then Some(e.message)
                                  else if e.MessageEnd? || e.AgentEnd? then None else old(streamingMessage)
      ensures !e.TurnEnd? ==> errorMessage == old(errorMessage)
    {
      hide ReduceAll, WatchAll;
      ProcessEvents(e);
    }

    method Apply(e: Event)
      requires Valid()
      modifies this`messages, this`streamingMessage, this`pendingToolCalls, this`errorMessage, this`events, this`watch
      ensures Valid() && events == old(events) + [e] && watch == See(old(watch), e)
      ensures Shown() == Reduce(old(Shown()), e)
    {
      ReducingKeepsRebuilt(Shown(), ReduceAll(start, events), failed, e);
      UpdateState(e);
      Record(e);
    }

    ghost method Record(e: Event)
      requires steeringQueue != followUpQueue && watch == WatchAll(events)
      requires Rebuilt(Shown(), Reduce(ReduceAll(start, events), e), failed)
      modifies this`events, this`watch
      ensures Valid() && events == old(events) + [e] && watch == See(old(watch), e)
    {
      RecordingKeepsRebuilt(Shown(), start, events, failed, e);
      events := events + [e];
      watch := See(watch, e);
    }

    method UpdateState(e: Event)
      modifies this`messages, this`streamingMessage, this`pendingToolCalls, this`errorMessage
      ensures Shown() == Reduce(old(Shown()), e)
    {
      match e {
        case MessageStart(m) =>
          streamingMessage := Some(m);
        case MessageUpdate(m) =>
          streamingMessage := Some(m);
        case MessageEnd(m) =>
          streamingMessage := None;
          messages := messages + [m];
        case ToolStart(id) =>
          pendingToolCalls := pendingToolCalls + {id};
        case ToolEnd(id, _) =>
          pendingToolCalls := pendingToolCalls - {id};
        case TurnEnd(reply, _) =>
          if reply.error.Some? && reply.error.value != "" {
            errorMessage := reply.error;
          }
        case AgentEnd(_) =>
          streamingMessage := None;
        case _ =>
      }
    }
  }

  // ---------------------------------------------------------------- what pairs of events do

  /** Inside a turn, where the messages may have been mangled. */
  predicate InsideTurn(w: Watch) {
    (w.phase == InTurn || w.phase == Malformed) && w.turnPhase == Within && w.closing == Open
  }

  lemma WholeMessage(w: Watch, opening: Message, m: Message)
    requires InsideTurn(w)
    ensures See(See(w, MessageStart(opening)), MessageEnd(m)) == w.(ended := w.ended + [m])
  {
  }
}
