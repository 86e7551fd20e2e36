/**
 * What an agent run hears from outside: the model's streams, the tools, and the hooks.
 *
 * Every answer is a function of the messages of the run so far. No two turns have the same messages
 * behind them, so this stands for any answers at all, also those of hosts that keep a state of their own.
 */
module AgentHost {
  import opened AgentEvents
  import opened Wrappers

  // ---------------------------------------------------------------- streams

  datatype StreamEvent =
    | Start(partial: AssistantMessage)
    | Delta(partial: AssistantMessage)
    | Final(message: AssistantMessage)

  /**
   * Whether a stream opens, what it sends, whether it then breaks instead of ending, and what its
   * result is, if any.
   */
  datatype Script = Script(opens: bool, events: seq<StreamEvent>, breaks: bool, result: Option<AssistantMessage>)

  /** A stream that is read to its end, or to its final event, gives its result; otherwise it fails. */
  function SaidBy(script: Script): Option<AssistantMessage> {
    if script.opens && (!script.breaks || exists e :: e in script.events && e.Final?) then script.result else None
  }

  /** The partial message after some events: none before a start. */
  function PartialAfter(events: seq<StreamEvent>): Option<AssistantMessage> {
    if events == [] then None
    else
      var before := PartialAfter(events[..|events| - 1]);
      match events[|events| - 1]
      case Start(message) => Some(message)
      case Delta(message) => if before.Some? then Some(message) else None
      case Final(_) => before
  }

  // ---------------------------------------------------------------- tools

  /** What running a tool gives. */
  datatype Execution = Returns(text: string, terminate: bool) | Throws(text: string)

  /** The hook after a tool: what it gives replaces what the tool gave. */
  datatype AfterTool =
    | NoHook
    | Overrides(text: Option<string>, isError: Option<bool>, terminate: Option<bool>)
    | HookThrows(failure: string)

  /** A refusal comes from the arguments' validation or from the hook before the tool. */
  datatype ToolAnswer = ToolAnswer(refusal: Option<string>, updates: nat, execution: Execution, after: AfterTool)

  // ---------------------------------------------------------------- the host

  /** Where the loop asks whether to stop before another turn. */
  datatype Place = AfterHook | AfterSteering | BeforeFollowUps | BeforeContinuations

  datatype Host = Host(
    stream: seq<Message> -> Script,
    tool: (seq<Message>, nat) -> ToolAnswer,
    stopsAfter: seq<Message> -> bool,
    stopsBefore: (seq<Message>, Place) -> bool,
    continues: seq<Message> -> seq<Message>)
}
