/** The tool calls of one assistant message, run one after the other or all at once. */
module ToolBatches {
  import opened AgentEvents
  import opened AgentHost
  import opened AgentState
  import opened Wrappers

  datatype Finalized = Finalized(call: ToolCall, text: string, isError: bool, terminate: bool)

  function ResultOf(f: Finalized): Message {
    ToolResult(f.call.id, f.call.name, f.text, f.isError)
  }

  function ResultsOf(fs: seq<Finalized>): (results: seq<Message>)
    ensures |results| == |fs|
  {
    seq(|fs|, i requires 0 <= i < |fs| => ResultOf(fs[i]))
  }

  /** Every result message is about its call: id, name, text and whether it is an error. */
  lemma ResultsCarryTheirCalls(fs: seq<Finalized>, i: nat)
    requires i < |fs|
    ensures ResultsOf(fs)[i] == ToolResult(fs[i].call.id, fs[i].call.name, fs[i].text, fs[i].isError)
  {
  }

  /** The hint to stop counts only when every call of a non-empty batch gives it. */
  predicate ShouldTerminate(fs: seq<Finalized>) {
    fs != [] && forall f :: f in fs ==> f.terminate
  }

  // ---------------------------------------------------------------- the outcome of one call

  function ErrorFor(call: ToolCall, text: string): Finalized {
    Finalized(call, text, true, false)
  }

  function Executed(call: ToolCall, execution: Execution): Finalized {
    match execution
    case Returns(text, terminate) => Finalized(call, text, false, terminate)
    case Throws(text) => ErrorFor(call, text)
  }

  function AfterwardsOf(f: Finalized, after: AfterTool): Finalized {
    match after
    case NoHook => f
    case Overrides(text, isError, terminate) =>
      Finalized(f.call, if text.Some? then text.value else f.text, if isError.Some? then isError.value else f.isError,
                if terminate.Some? then terminate.value else f.terminate)
    case HookThrows(failure) => ErrorFor(f.call, failure)
  }

  /** What a call comes to when nothing is aborted. */
  function OutcomeOf(call: ToolCall, a: ToolAnswer, tools: map<string, ToolMode>): Finalized {
    if call.name !in tools then ErrorFor(call, "Tool " + call.name + " not found")
    else if a.refusal.Some? then ErrorFor(call, a.refusal.value)
    else AfterwardsOf(Executed(call, a.execution), a.after)
  }

  /** Field by field: who decides about the outcome of a call. */
  lemma OutcomeTells(call: ToolCall, a: ToolAnswer, tools: map<string, ToolMode>)
    ensures
      var f := OutcomeOf(call, a, tools);
      var runs := call.name in tools && a.refusal.None?;
      var hooked := runs && a.after.Overrides?;
      && f.call == call
      && (!runs || a.after.HookThrows? ==> f.isError && !f.terminate)
      && (call.name !in tools ==> f.text == "Tool " + call.name + " not found")
      && (call.name in tools && a.refusal.Some? ==> f.text == a.refusal.value)
      && (runs && a.after.HookThrows? ==> f.text == a.after.failure)
      && (hooked && a.after.text.Some? ==> f.text == a.after.text.value)
      && (hooked && a.after.isError.Some? ==> f.isError == a.after.isError.value)
      && (hooked && a.after.terminate.Some? ==> f.terminate == a.after.terminate.value)
      && (runs && (a.after.NoHook? || (hooked && a.after.text.None?)) ==> f.text == a.execution.text)
      && (runs && (a.after.NoHook? || (hooked && a.after.isError.None?)) ==> f.isError == a.execution.Throws?)
      && (runs && (a.after.NoHook? || (hooked && a.after.terminate.None?)) ==>
            f.terminate == (a.execution.Returns? && a.execution.terminate))
  {
  }

  /** The outcome of a call that an abort has cut short. */
  predicate CutShort(f: Finalized, call: ToolCall) {
    f.call == call && f.isError && !f.terminate && f.text in {"Tool execution aborted", "Request was aborted"}
  }

  /** Unless aborted, the outcome is the answer's; an abort may have replaced it by its own error. */
  predicate OutcomeMay(f: Finalized, call: ToolCall, a: ToolAnswer, tools: map<string, ToolMode>, aborted: bool) {
    f == OutcomeOf(call, a, tools) || (aborted && call.name in tools && CutShort(f, call))
  }

  /** The outcomes are those of the first calls, in their order. */
  predicate OutcomesMay(fs: seq<Finalized>, calls: seq<ToolCall>, answers: nat -> ToolAnswer,
                        tools: map<string, ToolMode>,
                        aborted: bool) {
    && |fs| <= |calls|
    && forall i :: 0 <= i < |fs| ==> OutcomeMay(fs[i], calls[i], answers(i), tools, aborted)
  }

  /** The outcomes belong to the first calls, in their order; an unknown tool is an error. */
  predicate AnswerInOrder(fs: seq<Finalized>, calls: seq<ToolCall>, tools: map<string, ToolMode>) {
    && |fs| <= |calls|
    && forall i :: 0 <= i < |fs| ==>
         fs[i].call == calls[i] && (calls[i].name !in tools ==> fs[i].isError && !fs[i].terminate)
  }

  // ---------------------------------------------------------------- one call

  /** Either the call may run, or its outcome is already an error. */
  method PrepareToolCall(agent: Agent, call: ToolCall, a: ToolAnswer) returns (outcome: Option<Finalized>)
    modifies agent`aborted
    modifies agent.steeringQueue`batches, agent.steeringQueue`mode
    modifies agent.followUpQueue`batches, agent.followUpQueue`mode
    ensures old(agent.aborted) ==> agent.aborted
    ensures call.name !in agent.tools ==> outcome.Some?
    ensures outcome.Some? ==> outcome.value.call == call && outcome.value.isError && !outcome.value.terminate
    ensures outcome.Some? ==> OutcomeMay(outcome.value, call, a, agent.tools, agent.aborted)
    ensures outcome.None? ==> a.refusal.None?
  {
    if call.name !in agent.tools {
      return Some(Finalized(call, "Tool " + call.name + " not found", true, false));
    }
    agent.Await();
    var lost: bool := *;
    if agent.aborted && lost {
      return Some(Finalized(call, "Request was aborted", true, false));
    }
    if a.refusal.Some? {
      return Some(Finalized(call, a.refusal.value, true, false));
    }
    return None;
  }

  /** Tool events only touch the pending calls. */
  method EmitToolEvent(agent: Agent, e: Event)
    requires agent.Valid() && agent.active && InsideTurn(agent.watch)
    requires e.ToolStart? || e.ToolUpdate? || e.ToolEnd?
    modifies agent, agent.steeringQueue, agent.followUpQueue
    ensures agent.StillRunning() && agent.watch == old(agent.watch) && agent.events == old(agent.events) + [e]
    ensures agent.pendingToolCalls ==
              if e.ToolStart? then old(agent.pendingToolCalls) + {e.callId}
              else if e.ToolEnd? then old(agent.pendingToolCalls) - {e.callId}
              else old(agent.pendingToolCalls)
  {
    hide ReduceAll, WatchAll;
    agent.ProcessEvents(e);
  }

  predicate OnlyUpdates(events: seq<Event>, id: string) {
    forall e :: e in events ==> e == ToolUpdate(id)
  }

  /** Runs the tool; once aborted, that gives an error. */
  method Execute(agent: Agent, call: ToolCall, a: ToolAnswer) returns (f: Finalized, ghost updates: seq<Event>)
    requires agent.Valid() && agent.active && InsideTurn(agent.watch)
    modifies agent, agent.steeringQueue, agent.followUpQueue
    ensures agent.StillRunning()
    ensures agent.watch == old(agent.watch) && agent.pendingToolCalls == old(agent.pendingToolCalls)
    ensures agent.events == old(agent.events) + updates && OnlyUpdates(updates, call.id)
    ensures |updates| <= a.updates && (!agent.aborted ==> |updates| == a.updates)
    ensures f == Executed(call, a.execution) || (agent.aborted && f == ErrorFor(call, "Tool execution aborted"))
    ensures old(agent.aborted) ==> f == ErrorFor(call, "Tool execution aborted")
  {
    hide ReduceAll, WatchAll;
    updates := [];
    assert agent.events + [] == agent.events;
    if agent.aborted {
      return Finalized(call, "Tool execution aborted", true, false), updates;
    }
    for i := 0 to a.updates
      invariant agent.StillRunning()
      invariant agent.watch == old(agent.watch) && agent.pendingToolCalls == old(agent.pendingToolCalls)
      invariant agent.events == old(agent.events) + updates && OnlyUpdates(updates, call.id)
      invariant |updates| <= i && (!agent.aborted ==> |updates| == i)
    {
      if !agent.aborted {
        EmitToolEvent(agent, ToolUpdate(call.id));
        updates := updates + [ToolUpdate(call.id)];
      }
    }
    agent.Await();
    var lost: bool := *;
    if agent.aborted && (lost || a.execution.Throws?) {
      return Finalized(call, "Tool execution aborted", true, false), updates;
    }
    match a.execution {
      case Returns(text, terminate) => f := Finalized(call, text, false, terminate);
      case Throws(text) => f := Finalized(call, text, true, false);
    }
  }

  /** What the hook after the tool makes of its outcome; the hook is not heard once aborted. */
  method FinalizeExecuted(agent: Agent, executed: Finalized, after: AfterTool) returns (f: Finalized)
    modifies agent`aborted
    modifies agent.steeringQueue`batches, agent.steeringQueue`mode
    modifies agent.followUpQueue`batches, agent.followUpQueue`mode
    ensures old(agent.aborted) ==> agent.aborted
    ensures f == AfterwardsOf(executed, after) || (agent.aborted && f == ErrorFor(executed.call, "Request was aborted"))
    ensures old(agent.aborted) ==>
              match after
              case NoHook => f == executed
              case Overrides(_, _, _) => f == ErrorFor(executed.call, "Request was aborted")
              case HookThrows(failure) => f.call == executed.call && f.isError && !f.terminate
  {
    f := executed;
    if after.NoHook? {
      return;
    }
    var before := agent.aborted;
    agent.Await();
    var lost: bool := *;
    if after.HookThrows? && !(agent.aborted && lost) {
      return Finalized(f.call, after.failure, true, false);
    }
    if before || (agent.aborted && lost) {
      return Finalized(f.call, "Request was aborted", true, false);
    }
    if after.text.Some? {
      f := f.(text := after.text.value);
    }
    if after.isError.Some? {
      f := f.(isError := after.isError.value);
    }
    if after.terminate.Some? {
      f := f.(terminate := after.terminate.value);
    }
  }

  /** Runs the tool and the hook after it. */
  method ExecutePrepared(agent: Agent, call: ToolCall, a: ToolAnswer) returns (f: Finalized, ghost updates: seq<Event>)
    requires agent.Valid() && agent.active && InsideTurn(agent.watch) && call.name in agent.tools && a.refusal.None?
    modifies agent, agent.steeringQueue, agent.followUpQueue
    ensures agent.StillRunning()
    ensures agent.watch == old(agent.watch) && agent.pendingToolCalls == old(agent.pendingToolCalls)
    ensures agent.events == old(agent.events) + updates && OnlyUpdates(updates, call.id)
    ensures |updates| <= a.updates && (!agent.aborted ==> |updates| == a.updates)
    ensures f.call == call && OutcomeMay(f, call, a, agent.tools, agent.aborted)
    ensures old(agent.aborted) ==> f.isError && !f.terminate
  {
    hide ReduceAll, WatchAll;
    f, updates := Execute(agent, call, a);
    f := FinalizeExecuted(agent, f, a.after);
  }

  method EmitResult(agent: Agent, f: Finalized)
    requires agent.Valid() && agent.active && InsideTurn(agent.watch)
    modifies agent, agent.steeringQueue, agent.followUpQueue
    ensures agent.StillRunning()
    ensures agent.watch == old(agent.watch).(ended := old(agent.watch).ended + [ResultOf(f)])
    ensures agent.pendingToolCalls == old(agent.pendingToolCalls)
    ensures agent.events == old(agent.events) + [MessageStart(ResultOf(f)), MessageEnd(ResultOf(f))]
  {
    hide ReduceAll, WatchAll;
    WholeMessage(agent.watch, ResultOf(f), ResultOf(f));
    agent.Emit(MessageStart(ResultOf(f)));
    agent.Emit(MessageEnd(ResultOf(f)));
  }

  // ---------------------------------------------------------------- one call after the other

  /** The events of one call that runs by itself. */
  function CallEvents(f: Finalized, updates: seq<Event>): seq<Event> {
    [ToolStart(f.call.id)] + updates +
    [ToolEnd(f.call.id, f.isError), MessageStart(ResultOf(f)), MessageEnd(ResultOf(f))]
  }

  /** Each call starts only when the one before it has its result. */
  ghost predicate OneByOne(events: seq<Event>, fs: seq<Finalized>)
    decreases |fs|
  {
    if fs == [] then events == []
    else
      var f := fs[|fs| - 1];
      exists front, updates :: OnlyUpdates(updates, f.call.id) && events == front + CallEvents(f, updates)
        && OneByOne(front, fs[..|fs| - 1])
  }

  lemma OneMoreByOne(events: seq<Event>, fs: seq<Finalized>, f: Finalized, updates: seq<Event>)
    requires OneByOne(events, fs) && OnlyUpdates(updates, f.call.id)
    ensures OneByOne(events + CallEvents(f, updates), fs + [f])
  {
    var all, longer := events + CallEvents(f, updates), fs + [f];
    assert longer[..|longer| - 1] == fs && longer[|longer| - 1] == f;
    assert OnlyUpdates(updates, f.call.id) && all == events + CallEvents(f, updates) &&
        OneByOne(events, longer[..|longer| - 1]);
  }

  /** One call from its announcement to its result. */
  method ExecuteOne(agent: Agent, call: ToolCall, a: ToolAnswer) returns (f: Finalized, ghost updates: seq<Event>)
    requires agent.Valid() && agent.active && InsideTurn(agent.watch) && agent.pendingToolCalls == {}
    modifies agent, agent.steeringQueue, agent.followUpQueue
    ensures agent.StillRunning()
    ensures f.call == call && (call.name !in agent.tools ==> f.isError && !f.terminate)
    ensures OutcomeMay(f, call, a, agent.tools, agent.aborted)
    ensures agent.watch == old(agent.watch).(ended := old(agent.watch).ended + [ResultOf(f)])
    ensures agent.pendingToolCalls == {}
    ensures agent.events == old(agent.events) + CallEvents(f, updates) && OnlyUpdates(updates, call.id)
  {
    hide ReduceAll, WatchAll, OutcomeMay, ResultOf;
    EmitToolEvent(agent, ToolStart(call.id));
    var outcome := PrepareToolCall(agent, call, a);
    updates := [];
    if outcome.Some? {
      f := outcome.value;
    } else {
      f, updates := ExecutePrepared(agent, call, a);
    }
    ghost var aborted := agent.aborted;
    EmitToolEvent(agent, ToolEnd(call.id, f.isError));
    EmitResult(agent, f);
    MayStill(f, call, a, agent.tools, aborted, agent.aborted);
  }

  /** One call after the other; an abort cuts the batch short between two calls. */
  method ExecuteSequentially(agent: Agent, calls: seq<ToolCall>, answers: nat -> ToolAnswer)
    returns (finalized: seq<Finalized>, ghost shown: seq<Event>)
    requires agent.Valid() && agent.active && InsideTurn(agent.watch) && agent.pendingToolCalls == {}
    modifies agent, agent.steeringQueue, agent.followUpQueue
    ensures agent.StillRunning()
    ensures AnswerInOrder(finalized, calls, agent.tools) &&
              OutcomesMay(finalized, calls, answers, agent.tools, agent.aborted)
    ensures |finalized| < |calls| ==> agent.aborted
    ensures agent.watch == old(agent.watch).(ended := old(agent.watch).ended + ResultsOf(finalized))
    ensures agent.pendingToolCalls == {}
    ensures agent.events == old(agent.events) + shown && OneByOne(shown, finalized)
  {
    hide ReduceAll, WatchAll, OneByOne, OutcomeMay, CallEvents, AnswerInOrder, OutcomesMay;
    finalized, shown := [], [];
    OneByOneStarts();
    NothingAnsweredYet(calls, answers, agent.tools, agent.aborted);
    assert agent.events + [] == agent.events;
    for i := 0 to |calls|
      invariant agent.StillRunning()
      invariant |finalized| == i && AnswerInOrder(finalized, calls, agent.tools)
      invariant OutcomesMay(finalized, calls, answers, agent.tools, agent.aborted)
      invariant agent.watch == old(agent.watch).(ended := old(agent.watch).ended + ResultsOf(finalized))
      invariant agent.pendingToolCalls == {}
      invariant agent.events == old(agent.events) + shown && OneByOne(shown, finalized)
    {
      if agent.aborted {
        break;
      }
      ghost var before := agent.aborted;
      var f;
      ghost var updates;
      f, updates := ExecuteOne(agent, calls[i], answers(i));
      OneMoreOutcome(finalized, f, calls, answers, agent.tools, before, agent.aborted);
      assert ResultsOf(finalized + [f]) == ResultsOf(finalized) + [ResultOf(f)];
      OneMoreByOne(shown, finalized, f, updates);
      finalized, shown := finalized + [f], shown + CallEvents(f, updates);
      if agent.aborted {
        break;
      }
    }
  }

  lemma NothingAnsweredYet(calls: seq<ToolCall>, answers: nat -> ToolAnswer, tools: map<string, ToolMode>,
                           aborted: bool)
    ensures AnswerInOrder([], calls, tools) && OutcomesMay([], calls, answers, tools, aborted)
  {
  }

  lemma OneMoreOutcome(fs: seq<Finalized>, f: Finalized, calls: seq<ToolCall>, answers: nat -> ToolAnswer,
                       tools: map<string, ToolMode>, before: bool, aborted: bool)
    requires |fs| < |calls| && AnswerInOrder(fs, calls, tools) && OutcomesMay(fs, calls, answers, tools, before)
    requires f.call == calls[|fs|] && (f.call.name !in tools ==> f.isError && !f.terminate)
    requires OutcomeMay(f, calls[|fs|], answers(|fs|), tools, aborted) && (before ==> aborted)
    ensures AnswerInOrder(fs + [f], calls, tools) && OutcomesMay(fs + [f], calls, answers, tools, aborted)
  {
    forall i | 0 <= i < |fs|
      ensures OutcomeMay(fs[i], calls[i], answers(i), tools, aborted)
    {
      assert OutcomeMay(fs[i], calls[i], answers(i), tools, before);
    }
  }

  lemma OneByOneStarts()
    ensures OneByOne([], [])
  {
  }

  // ---------------------------------------------------------------- all calls at once

  /** The ids of the calls that have no outcome yet. */
  function Deferred(calls: seq<ToolCall>, entries: seq<Option<Finalized>>): set<string>
    requires |entries| <= |calls|
  {
    set i | 0 <= i < |entries| && entries[i].None? :: calls[i].id
  }

  /** The outcome of one call in a batch, or that it may run. */
  predicate EntryMay(entry: Option<Finalized>, call: ToolCall, a: ToolAnswer, tools: map<string, ToolMode>,
                     aborted: bool) {
    match entry
    case None => call.name in tools && a.refusal.None?
    case Some(f) =>
      && f.call == call && (call.name !in tools ==> f.isError && !f.terminate)
      && OutcomeMay(f, call, a, tools, aborted)
  }

  predicate EntriesInOrder(entries: seq<Option<Finalized>>, calls: seq<ToolCall>, answers: nat -> ToolAnswer,
                           tools: map<string, ToolMode>, aborted: bool) {
    && |entries| <= |calls|
    && forall i :: 0 <= i < |entries| ==> EntryMay(entries[i], calls[i], answers(i), tools, aborted)
  }

  predicate OnlyToolEvents(events: seq<Event>) {
    forall e :: e in events ==> e.ToolStart? || e.ToolUpdate? || e.ToolEnd?
  }

  /** Announces and prepares one call; a call that may run is left pending. */
  method PreflightOne(agent: Agent, call: ToolCall, a: ToolAnswer)
    returns (outcome: Option<Finalized>, ghost shown: seq<Event>)
    requires agent.Valid() && agent.active && InsideTurn(agent.watch)
    modifies agent, agent.steeringQueue, agent.followUpQueue
    ensures agent.StillRunning() && agent.watch == old(agent.watch)
    ensures EntryMay(outcome, call, a, agent.tools, agent.aborted)
    ensures agent.pendingToolCalls ==
              if outcome.None? then old(agent.pendingToolCalls) + {call.id} else old(agent.pendingToolCalls) - {call.id}
    ensures agent.events == old(agent.events) + shown
    ensures shown == [ToolStart(call.id)] + if outcome.Some? then [ToolEnd(call.id, true)] else []
  {
    hide ReduceAll, WatchAll;
    EmitToolEvent(agent, ToolStart(call.id));
    outcome := PrepareToolCall(agent, call, a);
    shown := [ToolStart(call.id)];
    if outcome.Some? {
      EmitToolEvent(agent, ToolEnd(call.id, true));
      shown := shown + [ToolEnd(call.id, true)];
    }
  }

  /** Announces and prepares the calls in turn. */
  method Preflight(agent: Agent, calls: seq<ToolCall>, answers: nat -> ToolAnswer)
    returns (entries: seq<Option<Finalized>>, ghost shown: seq<Event>)
    requires agent.Valid() && agent.active && InsideTurn(agent.watch) && agent.pendingToolCalls == {}
    modifies agent, agent.steeringQueue, agent.followUpQueue
    ensures agent.StillRunning() && agent.watch == old(agent.watch)
    ensures |entries| == |calls| && EntriesInOrder(entries, calls, answers, agent.tools, agent.aborted)
    ensures agent.pendingToolCalls <= Deferred(calls, entries)
    ensures agent.events == old(agent.events) + shown && OnlyToolEvents(shown)
  {
    hide ReduceAll, WatchAll, OutcomeMay;
    entries, shown := [], [];
    assert agent.events + [] == agent.events;
    for i := 0 to |calls|
      invariant agent.StillRunning() && agent.watch == old(agent.watch)
      invariant |entries| == i && EntriesInOrder(entries, calls, answers, agent.tools, agent.aborted)
      invariant agent.pendingToolCalls <= Deferred(calls, entries)
      invariant agent.events == old(agent.events) + shown && OnlyToolEvents(shown)
    {
      ghost var before := agent.aborted;
      var outcome;
      ghost var more;
      outcome, more := PreflightOne(agent, calls[i], answers(i));
      EntriesStay(entries, calls, answers, agent.tools, before, agent.aborted);
      DeferOneMore(calls, entries, outcome);
      entries, shown := entries + [outcome], shown + more;
    }
  }

  lemma EntriesStay(entries: seq<Option<Finalized>>, calls: seq<ToolCall>, answers: nat -> ToolAnswer,
                    tools: map<string, ToolMode>, before: bool, aborted: bool)
    requires EntriesInOrder(entries, calls, answers, tools, before) && (before ==> aborted)
    ensures EntriesInOrder(entries, calls, answers, tools, aborted)
  {
    forall i | 0 <= i < |entries|
      ensures EntryMay(entries[i], calls[i], answers(i), tools, aborted)
    {
      assert EntryMay(entries[i], calls[i], answers(i), tools, before);
    }
  }

  lemma DeferOneMore(calls: seq<ToolCall>, entries: seq<Option<Finalized>>, outcome: Option<Finalized>)
    requires |entries| < |calls|
    ensures Deferred(calls, entries + [outcome]) ==
              Deferred(calls, entries) + if outcome.None? then {calls[|entries|].id} else {}
  {
    var all := entries + [outcome];
    assert forall i :: 0 <= i < |entries| ==> all[i] == entries[i];
    assert all[|entries|] == outcome;
  }

  lemma CompleteOne(calls: seq<ToolCall>, entries: seq<Option<Finalized>>, i: nat, f: Finalized)
    requires i < |entries| <= |calls|
    ensures Deferred(calls, entries) - {calls[i].id} <= Deferred(calls, entries[i := Some(f)])
  {
    var after := entries[i := Some(f)];
    forall id | id in Deferred(calls, entries) && id != calls[i].id
      ensures id in Deferred(calls, after)
    {
      var k :| 0 <= k < |entries| && entries[k].None? && calls[k].id == id;
      assert after[k].None?;
    }
  }

  /** One deferred call finishes. */
  method FinishOne(agent: Agent, calls: seq<ToolCall>, answers: nat -> ToolAnswer, before: seq<Option<Finalized>>,
                   i: nat)
    returns (entries: seq<Option<Finalized>>, ghost shown: seq<Event>)
    requires agent.Valid() && agent.active && InsideTurn(agent.watch)
    requires |before| == |calls| && EntriesInOrder(before, calls, answers, agent.tools, agent.aborted)
    requires i < |before| && before[i].None? && agent.pendingToolCalls <= Deferred(calls, before)
    modifies agent, agent.steeringQueue, agent.followUpQueue
    ensures agent.StillRunning() && agent.watch == old(agent.watch)
    ensures exists f :: entries == before[i := Some(f)]
    ensures EntriesInOrder(entries, calls, answers, agent.tools, agent.aborted)
    ensures agent.pendingToolCalls <= Deferred(calls, entries)
    ensures agent.events == old(agent.events) + shown && OnlyToolEvents(shown)
  {
    hide ReduceAll, WatchAll, OutcomeMay, Deferred;
    assert EntryMay(before[i], calls[i], answers(i), agent.tools, agent.aborted);
    var f;
    ghost var updates;
    f, updates := ExecutePrepared(agent, calls[i], answers(i));
    ghost var aborted := agent.aborted;
    EmitToolEvent(agent, ToolEnd(calls[i].id, f.isError));
    MayStill(f, calls[i], answers(i), agent.tools, aborted, agent.aborted);
    EntriesStay(before, calls, answers, agent.tools, old(agent.aborted), agent.aborted);
    CompleteOne(calls, before, i, f);
    entries, shown := before[i := Some(f)], updates + [ToolEnd(calls[i].id, f.isError)];
  }

  /** Lets the deferred calls finish in any order. */
  method CompleteAll(agent: Agent, calls: seq<ToolCall>, answers: nat -> ToolAnswer, deferred: seq<Option<Finalized>>)
    returns (entries: seq<Option<Finalized>>, ghost shown: seq<Event>)
    requires agent.Valid() && agent.active && InsideTurn(agent.watch)
    requires |deferred| == |calls| && EntriesInOrder(deferred, calls, answers, agent.tools, agent.aborted)
    requires agent.pendingToolCalls <= Deferred(calls, deferred)
    modifies agent, agent.steeringQueue, agent.followUpQueue
    ensures agent.StillRunning() && agent.watch == old(agent.watch)
    ensures |entries| == |calls| && EntriesInOrder(entries, calls, answers, agent.tools, agent.aborted)
    ensures forall i :: 0 <= i < |entries| ==> entries[i].Some?
    ensures agent.pendingToolCalls == {}
    ensures agent.events == old(agent.events) + shown && OnlyToolEvents(shown)
  {
    hide ReduceAll, WatchAll, EntryMay, EntriesInOrder;
    entries, shown := deferred, [];
    assert agent.events + [] == agent.events;
    var running := set i | 0 <= i < |entries| && entries[i].None?;
    while running != {}
      invariant agent.StillRunning() && agent.watch == old(agent.watch)
      invariant |entries| == |calls| && EntriesInOrder(entries, calls, answers, agent.tools, agent.aborted)
      invariant forall i :: i in running <==> 0 <= i < |entries| && entries[i].None?
      invariant agent.pendingToolCalls <= Deferred(calls, entries)
      invariant agent.events == old(agent.events) + shown && OnlyToolEvents(shown)
    {
      var i :| i in running;
      ghost var more;
      entries, more := FinishOne(agent, calls, answers, entries, i);
      shown := shown + more;
      running := running - {i};
    }
    assert Deferred(calls, entries) == {};
  }

  lemma MayStill(f: Finalized, call: ToolCall, a: ToolAnswer, tools: map<string, ToolMode>, before: bool, aborted: bool)
    requires OutcomeMay(f, call, a, tools, before) && (before ==> aborted)
    ensures OutcomeMay(f, call, a, tools, aborted)
  {
  }

  /** The events of the results, in the order of the calls. */
  function ResultEvents(fs: seq<Finalized>): seq<Event> {
    if fs == [] then []
    else ResultEvents(fs[..|fs| - 1]) + [MessageStart(ResultOf(fs[|fs| - 1])), MessageEnd(ResultOf(fs[|fs| - 1]))]
  }

  /** First everything about the calls, whatever order they finish in, then the results in the order of the calls. */
  ghost predicate AllAtOnce(events: seq<Event>, fs: seq<Finalized>) {
    exists front :: OnlyToolEvents(front) && events == front + ResultEvents(fs)
  }

  /** The results of finished calls, one after the other. */
  method EmitResults(agent: Agent, finalized: seq<Finalized>)
    requires agent.Valid() && agent.active && InsideTurn(agent.watch) && agent.pendingToolCalls == {}
    modifies agent, agent.steeringQueue, agent.followUpQueue
    ensures agent.StillRunning()
    ensures agent.watch == old(agent.watch).(ended := old(agent.watch).ended + ResultsOf(finalized))
    ensures agent.pendingToolCalls == {}
    ensures agent.events == old(agent.events) + ResultEvents(finalized)
  {
    hide ReduceAll, WatchAll;
    assert agent.events + [] == agent.events;
    for i := 0 to |finalized|
      invariant agent.StillRunning()
      invariant agent.watch == old(agent.watch).(ended := old(agent.watch).ended + ResultsOf(finalized[..i]))
      invariant agent.pendingToolCalls == {}
      invariant agent.events == old(agent.events) + ResultEvents(finalized[..i])
    {
      EmitResult(agent, finalized[i]);
      assert ResultsOf(finalized[..i + 1]) == ResultsOf(finalized[..i]) + [ResultOf(finalized[i])];
      assert finalized[..i + 1][..i] == finalized[..i];
    }
    assert finalized[..|finalized|] == finalized;
  }

  /** What all calls of a finished batch have come to. */
  function AllOutcomes(entries: seq<Option<Finalized>>): seq<Finalized>
    requires forall i :: 0 <= i < |entries| ==> entries[i].Some?
  {
    seq(|entries|, i requires 0 <= i < |entries| => entries[i].value)
  }

  lemma AllOutcomesInOrder(entries: seq<Option<Finalized>>, calls: seq<ToolCall>, answers: nat -> ToolAnswer,
                           tools: map<string, ToolMode>, aborted: bool)
    requires |entries| == |calls| && EntriesInOrder(entries, calls, answers, tools, aborted)
    requires forall i :: 0 <= i < |entries| ==> entries[i].Some?
    ensures AnswerInOrder(AllOutcomes(entries), calls, tools)
    ensures OutcomesMay(AllOutcomes(entries), calls, answers, tools, aborted)
  {
    forall i | 0 <= i < |entries|
      ensures EntryMay(entries[i], calls[i], answers(i), tools, aborted)
    {
    }
  }

  lemma OutcomesStay(fs: seq<Finalized>, calls: seq<ToolCall>, answers: nat -> ToolAnswer,
                     tools: map<string, ToolMode>, before: bool, aborted: bool)
    requires OutcomesMay(fs, calls, answers, tools, before) && (before ==> aborted)
    ensures OutcomesMay(fs, calls, answers, tools, aborted)
  {
    forall i | 0 <= i < |fs|
      ensures OutcomeMay(fs[i], calls[i], answers(i), tools, aborted)
    {
      assert OutcomeMay(fs[i], calls[i], answers(i), tools, before);
    }
  }

  /** All calls at once: whatever order they finish in, the results come in the order of the calls. */
  method ExecuteInParallel(agent: Agent, calls: seq<ToolCall>, answers: nat -> ToolAnswer)
    returns (finalized: seq<Finalized>, ghost shown: seq<Event>)
    requires agent.Valid() && agent.active && InsideTurn(agent.watch) && agent.pendingToolCalls == {}
    modifies agent, agent.steeringQueue, agent.followUpQueue
    ensures agent.StillRunning()
    ensures |finalized| == |calls| && AnswerInOrder(finalized, calls, agent.tools)
    ensures OutcomesMay(finalized, calls, answers, agent.tools, agent.aborted)
    ensures agent.watch == old(agent.watch).(ended := old(agent.watch).ended + ResultsOf(finalized))
    ensures agent.pendingToolCalls == {}
    ensures agent.events == old(agent.events) + shown && AllAtOnce(shown, finalized)
  {
    hide ReduceAll, WatchAll, OutcomeMay, EntryMay, EntriesInOrder, OutcomesMay, AnswerInOrder, Deferred, ResultEvents;
    var deferred, entries;
    ghost var first, second;
    deferred, first := Preflight(agent, calls, answers);
    entries, second := CompleteAll(agent, calls, answers, deferred);
    finalized := AllOutcomes(entries);
    AllOutcomesInOrder(entries, calls, answers, agent.tools, agent.aborted);
    ghost var aborted := agent.aborted;
    EmitResults(agent, finalized);
    OutcomesStay(finalized, calls, answers, agent.tools, aborted, agent.aborted);
    shown := first + second + ResultEvents(finalized);
    assert OnlyToolEvents(first + second);
  }

  // ---------------------------------------------------------------- a batch

  predicate InSequence(agent: Agent, calls: seq<ToolCall>) {
    || agent.toolExecution == Sequential
    || exists call :: call in calls && call.name in agent.tools && agent.tools[call.name] == Sequential
  }

  /** One sequential tool makes the whole batch sequential. */
  method ExecuteToolCalls(agent: Agent, calls: seq<ToolCall>, answers: nat -> ToolAnswer)
    returns (finalized: seq<Finalized>, terminate: bool, ghost shown: seq<Event>)
    requires agent.Valid() && agent.active && InsideTurn(agent.watch) && agent.pendingToolCalls == {}
    modifies agent, agent.steeringQueue, agent.followUpQueue
    ensures agent.StillRunning()
    ensures AnswerInOrder(finalized, calls, agent.tools) &&
              OutcomesMay(finalized, calls, answers, agent.tools, agent.aborted)
    ensures |finalized| < |calls| ==> agent.aborted && InSequence(agent, calls)
    ensures agent.watch == old(agent.watch).(ended := old(agent.watch).ended + ResultsOf(finalized))
    ensures agent.pendingToolCalls == {}
    ensures terminate <==> finalized != [] && forall i :: 0 <= i < |finalized| ==> finalized[i].terminate
    ensures terminate <==> ShouldTerminate(finalized)
    ensures agent.events == old(agent.events) + shown
    ensures if agent.toolExecution == Sequential
               || exists i :: 0 <= i < |calls| && calls[i].name in agent.tools &&
                   agent.tools[calls[i].name] == Sequential
            then OneByOne(shown, finalized)
            else AllAtOnce(shown, finalized)
  {
    hide ReduceAll, WatchAll, OneByOne, AllAtOnce, OutcomesMay;
    if InSequence(agent, calls) {
      finalized, shown := ExecuteSequentially(agent, calls, answers);
    } else {
      finalized, shown := ExecuteInParallel(agent, calls, answers);
    }
    terminate := ShouldTerminate(finalized);
  }
}
