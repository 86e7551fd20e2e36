/** The record of an agent run: its turns, its polls, and which batches went where. */
module RunRecords {
  import opened AgentEvents
  import opened AgentHost
  import opened AgentState
  import opened MessageQueue
  import opened Sequences
  import opened ToolBatches
  import opened Wrappers

  // ---------------------------------------------------------------- what a run is made of

  /** The messages injected into a turn, the reply, and the outcomes of its tool calls. */
  datatype Turn = Turn(injected: seq<Message>, reply: AssistantMessage, outcomes: seq<Finalized>)

  /** What a run is given: the host it hears, its prompts and tools, and whether to skip the first poll for steering. */
  datatype Setting = Setting(host: Host, prompts: seq<Message>, tools: map<string, ToolMode>, skips: bool)

  /** What a turn adds to the transcript. */
  function Said(t: Turn): seq<Message> {
    t.injected + [Assistant(t.reply)] + ResultsOf(t.outcomes)
  }

  /** There were tool calls, and not every outcome asks to stop. */
  predicate WantsMore(t: Turn) {
    t.reply.calls != [] && !ShouldTerminate(t.outcomes)
  }

  function Transcript(turns: seq<Turn>): seq<Message> {
    if turns == [] then []
    else Transcript(turns[..|turns| - 1]) + Said(turns[|turns| - 1])
  }

  /** The messages of the run after some turns: what the host goes by. */
  function SoFar(turns: seq<Turn>, w: Setting): seq<Message> {
    w.prompts + Transcript(turns)
  }

  function Injected(turns: seq<Turn>): seq<Message> {
    if turns == [] then [] else Injected(turns[..|turns| - 1]) + turns[|turns| - 1].injected
  }

  function Closings(turns: seq<Turn>): seq<(AssistantMessage, seq<Message>)> {
    if turns == [] then []
    else Closings(turns[..|turns| - 1]) + [(turns[|turns| - 1].reply, ResultsOf(turns[|turns| - 1].outcomes))]
  }

  lemma OneMoreTurn(turns: seq<Turn>, t: Turn)
    ensures Transcript(turns + [t]) == Transcript(turns) + Said(t)
    ensures Injected(turns + [t]) == Injected(turns) + t.injected
    ensures Closings(turns + [t]) == Closings(turns) + [(t.reply, ResultsOf(t.outcomes))]
  {
    assert (turns + [t])[..|turns|] == turns;
  }

  lemma OneMoreTurnAfter(prompts: seq<Message>, turns: seq<Turn>, t: Turn)
    ensures prompts + Transcript(turns) + Said(t) == prompts + Transcript(turns + [t]) + []
  {
    OneMoreTurn(turns, t);
  }

  lemma OpenTurnSoFar(front: seq<Message>, pending: seq<Message>, m: Message)
    ensures front + [] + pending + [m] == front + (pending + [m] + [])
  {
  }

  /** The outcomes of every turn belong to its first calls, in their order. */
  predicate AllAnswered(turns: seq<Turn>, tools: map<string, ToolMode>) {
    turns == [] ||
    var last := turns[|turns| - 1];
    AllAnswered(turns[..|turns| - 1], tools) && AnswerInOrder(last.outcomes, last.reply.calls, tools)
  }

  /** Every call has its outcome, unless the reply itself failed. */
  predicate Complete(t: Turn) {
    t.reply.stop in {Failed, Aborted} || |t.outcomes| == |t.reply.calls|
  }

  predicate AllComplete(turns: seq<Turn>) {
    turns == [] || (AllComplete(turns[..|turns| - 1]) && Complete(turns[|turns| - 1]))
  }

  lemma {:induction false} EveryTurnIsAnswered(turns: seq<Turn>, tools: map<string, ToolMode>, k: nat)
    requires AllAnswered(turns, tools) && k < |turns|
    ensures AnswerInOrder(turns[k].outcomes, turns[k].reply.calls, tools)
    ensures AllComplete(turns) ==> Complete(turns[k])
  {
    if k < |turns| - 1 {
      EveryTurnIsAnswered(turns[..|turns| - 1], tools, k);
    }
  }

  lemma AnsweredOneMore(turns: seq<Turn>, t: Turn, tools: map<string, ToolMode>)
    requires AllAnswered(turns, tools) && AnswerInOrder(t.outcomes, t.reply.calls, tools)
    ensures AllAnswered(turns + [t], tools)
    ensures AllComplete(turns + [t]) <==> AllComplete(turns) && Complete(t)
  {
    assert (turns + [t])[..|turns|] == turns;
  }

  datatype Source = Steering | FollowUp | Continuation

  /** The batches a source returned when it was polled, and after how many turns that was. */
  datatype Poll = Poll(source: Source, batches: seq<Batch>, turn: nat)

  /** Every batch the polls of one source returned. */
  function PolledFrom(polls: seq<Poll>, source: Source): seq<Batch> {
    if polls == [] then []
    else
      var p := polls[|polls| - 1];
      PolledFrom(polls[..|polls| - 1], source) + if p.source == source then p.batches else []
  }

  /** Every batch that any poll returned. */
  function Polled(polls: seq<Poll>): seq<Batch> {
    if polls == [] then [] else Polled(polls[..|polls| - 1]) + polls[|polls| - 1].batches
  }

  /** The batches polled between turn k and the one before it. */
  function PolledAt(polls: seq<Poll>, k: nat): seq<Batch> {
    if polls == [] then []
    else
      var p := polls[|polls| - 1];
      PolledAt(polls[..|polls| - 1], k) + if p.turn == k then p.batches else []
  }

  /** A poll of one source adds to what that source gave, after what it had given before the run. */
  lemma OneMorePollFrom(before: seq<Batch>, polls: seq<Poll>, p: Poll, source: Source)
    ensures before + PolledFrom(polls + [p], source) ==
              (before + PolledFrom(polls, source)) + if p.source == source then p.batches else []
  {
    assert (polls + [p])[..|polls|] == polls;
    assert before + (PolledFrom(polls, source) + p.batches) == (before + PolledFrom(polls, source)) + p.batches;
  }

  /** The poll was the last one, it came after these turns, and the source had nothing. */
  predicate LastWasEmpty(polls: seq<Poll>, source: Source, turns: seq<Turn>) {
    polls != [] && polls[|polls| - 1] == Poll(source, [], |turns|)
  }

  /**
   * When a source may be polled. Steering: when no hook has asked to stop after the turn. Follow-ups: only
   * after a turn that wants no more and an empty steering poll. Continuations: only after an empty follow-up
   * poll. Before each of them no hook asked to stop.
   */
  predicate MayPoll(polls: seq<Poll>, turns: seq<Turn>, source: Source, w: Setting) {
    var said := SoFar(turns, w);
    match source
    case Steering => turns == [] || (!w.host.stopsAfter(said) && !w.host.stopsBefore(said, AfterHook))
    case FollowUp =>
      && turns != [] && !WantsMore(turns[|turns| - 1]) && LastWasEmpty(polls, Steering, turns)
      && !w.host.stopsBefore(said, AfterSteering) && !w.host.stopsBefore(said, BeforeFollowUps)
    case Continuation => LastWasEmpty(polls, FollowUp, turns) && !w.host.stopsBefore(said, BeforeContinuations)
  }

  /** The host's policy decides what a poll for continuations returns. */
  predicate AnswersPolicy(p: Poll, turns: seq<Turn>, w: Setting) {
    p.source == Continuation ==> Flat(p.batches) == w.host.continues(SoFar(turns, w))
  }

  predicate InOrder(polls: seq<Poll>, turns: seq<Turn>, w: Setting) {
    polls == [] ||
    var front, last := polls[..|polls| - 1], polls[|polls| - 1];
    && InOrder(front, turns, w) && last.turn <= |turns|
    && MayPoll(front, turns[..last.turn], last.source, w) && AnswersPolicy(last, turns[..last.turn], w)
    && (front == [] && w.skips ==> last.batches == [])
  }

  lemma OrderOneMorePoll(polls: seq<Poll>, turns: seq<Turn>, p: Poll, w: Setting)
    requires InOrder(polls, turns, w) && MayPoll(polls, turns, p.source, w) && AnswersPolicy(p, turns, w) &&
              p.turn == |turns|
    requires polls == [] && w.skips ==> p.batches == []
    ensures InOrder(polls + [p], turns, w)
  {
    assert turns[..|turns|] == turns && (polls + [p])[..|polls|] == polls;
  }

  lemma {:induction false} OrderOneMoreTurn(polls: seq<Poll>, turns: seq<Turn>, t: Turn, w: Setting)
    requires InOrder(polls, turns, w)
    ensures InOrder(polls, turns + [t], w)
  {
    if polls == [] {
    } else {
      OrderOneMoreTurn(polls[..|polls| - 1], turns, t, w);
      var n := polls[|polls| - 1].turn;
      assert (turns + [t])[..n] == turns[..n];
    }
  }

  /** Every poll was allowed when it was made, and the host's policy was heard. */
  lemma {:induction false} EveryPollWasAllowed(polls: seq<Poll>, turns: seq<Turn>, w: Setting, k: nat)
    requires InOrder(polls, turns, w) && k < |polls|
    ensures polls[k].turn <= |turns| && MayPoll(polls[..k], turns[..polls[k].turn], polls[k].source, w)
    ensures
      var p := polls[k];
      var said := w.prompts + Transcript(turns[..p.turn]);
      match p.source
      case Steering => p.turn > 0 ==> !w.host.stopsAfter(said) && !w.host.stopsBefore(said, AfterHook)
      case FollowUp =>
        && k > 0 && polls[k - 1] == Poll(Steering, [], p.turn)
        && p.turn > 0 && (turns[p.turn - 1].reply.calls == [] || ShouldTerminate(turns[p.turn - 1].outcomes))
        && !w.host.stopsBefore(said, AfterSteering) && !w.host.stopsBefore(said, BeforeFollowUps)
      case Continuation =>
        && k > 0 && polls[k - 1] == Poll(FollowUp, [], p.turn)
        && !w.host.stopsBefore(said, BeforeContinuations) && Flat(p.batches) == w.host.continues(said)
    ensures k == 0 && w.skips ==> polls[0].batches == []
  {
    if k < |polls| - 1 {
      EveryPollWasAllowed(polls[..|polls| - 1], turns, w, k);
      assert polls[..|polls| - 1][..k] == polls[..k];
    }
  }

  // ---------------------------------------------------------------- why there is another turn

  /** Steering was polled between turn k and the one before it. */
  predicate Steered(polls: seq<Poll>, k: nat) {
    polls != [] &&
        ((polls[|polls| - 1].source == Steering && polls[|polls| - 1].turn == k) || Steered(polls[..|polls| - 1], k))
  }

  /** The reply of the last turn, if any, did not fail. */
  predicate Going(turns: seq<Turn>) {
    turns == [] || turns[|turns| - 1].reply.stop !in {Failed, Aborted}
  }

  /**
   * Another turn may be taken: after a poll for steering, and with messages to inject, or else
   * because the last turn wants more and no hook asked to stop.
   */
  predicate MayTurn(polls: seq<Poll>, turns: seq<Turn>, pending: seq<Message>, w: Setting) {
    && Steered(polls, |turns|) && Going(turns)
    && (turns != [] && pending == [] ==>
          WantsMore(turns[|turns| - 1]) && !w.host.stopsBefore(SoFar(turns, w), AfterSteering))
  }

  predicate TurnsDue(turns: seq<Turn>, polls: seq<Poll>, w: Setting) {
    turns == [] ||
    var front, last := turns[..|turns| - 1], turns[|turns| - 1];
    TurnsDue(front, polls, w) && MayTurn(polls, front, last.injected, w)
  }

  lemma SteeredOnePoll(polls: seq<Poll>, p: Poll, k: nat)
    ensures Steered(polls + [p], k) <==> Steered(polls, k) || (p.source == Steering && p.turn == k)
  {
    assert (polls + [p])[..|polls|] == polls;
  }

  lemma {:induction false} DueOnePoll(turns: seq<Turn>, polls: seq<Poll>, p: Poll, w: Setting)
    requires TurnsDue(turns, polls, w)
    ensures TurnsDue(turns, polls + [p], w)
  {
    if turns != [] {
      DueOnePoll(turns[..|turns| - 1], polls, p, w);
      SteeredOnePoll(polls, p, |turns| - 1);
    }
  }

  lemma {:induction false} SteeredSomewhere(polls: seq<Poll>, k: nat) returns (i: nat)
    requires Steered(polls, k)
    ensures i < |polls| && polls[i].source == Steering && polls[i].turn == k
  {
    var n := |polls| - 1;
    if polls[n].source == Steering && polls[n].turn == k {
      i := n;
    } else {
      i := SteeredSomewhere(polls[..n], k);
    }
  }

  /**
   * No turn without a cause: each one follows a poll for steering, and injects messages unless the
   * turn before wants more.
   */
  lemma {:induction false} EveryTurnWasDue(turns: seq<Turn>, polls: seq<Poll>, w: Setting, k: nat)
    requires TurnsDue(turns, polls, w) && k < |turns|
    ensures MayTurn(polls, turns[..k], turns[k].injected, w)
    ensures exists i :: 0 <= i < |polls| && polls[i].source == Steering && polls[i].turn == k
    ensures k > 0 ==> turns[k - 1].reply.stop !in {Failed, Aborted}
    ensures k > 0 && turns[k].injected == [] ==>
              && turns[k - 1].reply.calls != []
              && (turns[k - 1].outcomes == [] || exists f :: f in turns[k - 1].outcomes && !f.terminate)
              && !w.host.stopsBefore(w.prompts + Transcript(turns[..k]), AfterSteering)
  {
    var front := turns[..|turns| - 1];
    if k < |front| {
      EveryTurnWasDue(front, polls, w, k);
      assert front[..k] == turns[..k];
    } else {
      var i := SteeredSomewhere(polls, k);
    }
  }

  // ---------------------------------------------------------------- what the host said

  /** The reply is what the host's stream said, and the outcomes are what its tools answered. */
  predicate TurnHeard(t: Turn, before: seq<Message>, w: Setting) {
    var said := before + t.injected + [Assistant(t.reply)];
    && SaidBy(w.host.stream(before + t.injected)) == Some(t.reply)
    && |t.outcomes| == (if t.reply.stop in {Failed, Aborted} then 0 else |t.reply.calls|)
    && (|t.outcomes| <= |t.reply.calls|)
    && forall i :: 0 <= i < |t.outcomes| ==> t.outcomes[i] == OutcomeOf(t.reply.calls[i], w.host.tool(said, i), w.tools)
  }

  predicate AllHeard(turns: seq<Turn>, w: Setting) {
    turns == [] ||
    (AllHeard(turns[..|turns| - 1], w) && TurnHeard(turns[|turns| - 1], SoFar(turns[..|turns| - 1], w), w))
  }

  /** In every turn the model and the tools were heard. */
  lemma {:induction false} EveryTurnWasHeard(turns: seq<Turn>, w: Setting, k: nat)
    requires AllHeard(turns, w) && k < |turns|
    ensures TurnHeard(turns[k], SoFar(turns[..k], w), w)
    ensures
      var t := turns[k];
      var heard := w.prompts + Transcript(turns[..k]) + t.injected;
      var script := w.host.stream(heard);
      && script.opens && script.result == Some(t.reply)
      && (script.breaks ==> exists e :: e in script.events && e.Final?)
      && |t.outcomes| == (if t.reply.stop in {Failed, Aborted} then 0 else |t.reply.calls|)
      && forall i :: 0 <= i < |t.outcomes| ==>
           t.outcomes[i] == OutcomeOf(t.reply.calls[i], w.host.tool(heard + [Assistant(t.reply)], i), w.tools)
  {
    var front := turns[..|turns| - 1];
    if k < |front| {
      EveryTurnWasHeard(front, w, k);
      assert front[..k] == turns[..k];
    }
  }

  // ---------------------------------------------------------------- delivery

  /** Every turn got exactly the batches that were polled for it, whole. */
  predicate InWholeTurns(turns: seq<Turn>, polls: seq<Poll>) {
    turns == [] ||
    (InWholeTurns(turns[..|turns| - 1], polls) && turns[|turns| - 1].injected == Flat(PolledAt(polls, |turns| - 1)))
  }

  /** Between two turns at most one poll returned anything. */
  predicate OneAnswerPerTurn(polls: seq<Poll>) {
    polls == [] ||
    var front, last := polls[..|polls| - 1], polls[|polls| - 1];
    OneAnswerPerTurn(front) && (last.batches != [] ==> PolledAt(front, last.turn) == [])
  }

  /**
   * Everything polled was injected into the turn it was polled for, or is pending for the
   * next one; the sources were polled in order; every turn had a cause, and heard what the host said; and
   * every call of every turn has its outcome.
   */
  predicate Delivered(turns: seq<Turn>, polls: seq<Poll>, pending: seq<Message>, w: Setting) {
    && Injected(turns) + pending == Flat(Polled(polls))
    && InWholeTurns(turns, polls) && pending == Flat(PolledAt(polls, |turns|))
    && OneAnswerPerTurn(polls) && InOrder(polls, turns, w) && AllComplete(turns)
    && TurnsDue(turns, polls, w) && AllHeard(turns, w)
  }

  lemma EmptyPollIsEmpty(batches: seq<Batch>)
    ensures Flat(batches) == [] <==> batches == []
  {
    if batches != [] {
      assert Flat(batches) == batches[0] + Flat(batches[1..]);
      assert Flat(batches)[0] == batches[0][0];
    }
  }

  lemma OneMorePoll(polls: seq<Poll>, p: Poll, k: nat)
    ensures Polled(polls + [p]) == Polled(polls) + p.batches
    ensures PolledAt(polls + [p], k) == PolledAt(polls, k) + if p.turn == k then p.batches else []
  {
    assert (polls + [p])[..|polls|] == polls;
  }

  /** A later poll changes nothing for the turns before it. */
  lemma {:induction false} EarlierTurnsStay(turns: seq<Turn>, polls: seq<Poll>, p: Poll)
    requires InWholeTurns(turns, polls) && p.turn >= |turns|
    ensures InWholeTurns(turns, polls + [p])
  {
    if turns != [] {
      var n := |turns| - 1;
      EarlierTurnsStay(turns[..n], polls, p);
      OneMorePoll(polls, p, n);
      assert PolledAt(polls, n) + [] == PolledAt(polls, n);
      assert turns[n].injected == Flat(PolledAt(polls, n));
    }
  }

  lemma DeliverPoll(turns: seq<Turn>, polls: seq<Poll>, p: Poll, w: Setting)
    requires Delivered(turns, polls, [], w) && MayPoll(polls, turns, p.source, w) && p.turn == |turns|
    requires AnswersPolicy(p, turns, w) && (polls == [] && w.skips ==> p.batches == [])
    ensures Delivered(turns, polls + [p], Flat(p.batches), w)
  {
    hide AllHeard, TurnsDue, MayPoll, AnswersPolicy;
    OneMorePoll(polls, p, |turns|);
    EmptyPollIsEmpty(PolledAt(polls, |turns|));
    FlatConcat(Polled(polls), p.batches);
    assert Injected(turns) + [] == Injected(turns) && [] + p.batches == p.batches;
    EarlierTurnsStay(turns, polls, p);
    assert (polls + [p])[..|polls|] == polls;
    OrderOneMorePoll(polls, turns, p, w);
    DueOnePoll(turns, polls, p, w);
  }

  /** What one more poll does for the record. */
  lemma AfterPoll(turns: seq<Turn>, polls: seq<Poll>, p: Poll, w: Setting)
    requires Delivered(turns, polls, [], w) && MayPoll(polls, turns, p.source, w) && p.turn == |turns|
    requires AnswersPolicy(p, turns, w) && (polls == [] && w.skips ==> p.batches == [])
    ensures Delivered(turns, polls + [p], Flat(p.batches), w)
    ensures Flat(p.batches) == [] ==> LastWasEmpty(polls + [p], p.source, turns)
    ensures Steered(polls, |turns|) || p.source == Steering ==> Steered(polls + [p], |turns|)
  {
    hide Delivered, MayPoll, AnswersPolicy;
    DeliverPoll(turns, polls, p, w);
    EmptyPollIsEmpty(p.batches);
    SteeredOnePoll(polls, p, |turns|);
  }

  /** No poll is recorded for a turn that has not come. */
  lemma {:induction false} NothingPolledLater(polls: seq<Poll>, turns: seq<Turn>, w: Setting, k: nat)
    requires InOrder(polls, turns, w) && k > |turns|
    ensures PolledAt(polls, k) == []
  {
    if polls != [] {
      NothingPolledLater(polls[..|polls| - 1], turns, w, k);
    }
  }

  lemma DeliverTurn(turns: seq<Turn>, polls: seq<Poll>, t: Turn, w: Setting)
    requires Delivered(turns, polls, t.injected, w) && Complete(t)
    requires MayTurn(polls, turns, t.injected, w) && TurnHeard(t, SoFar(turns, w), w)
    ensures Delivered(turns + [t], polls, [], w)
  {
    hide MayTurn, TurnHeard, SoFar;
    OneMoreTurn(turns, t);
    NothingPolledLater(polls, turns, w, |turns| + 1);
    OrderOneMoreTurn(polls, turns, t, w);
    assert (turns + [t])[..|turns|] == turns;
    assert Injected(turns) + t.injected + [] == Injected(turns) + t.injected;
  }

  /** A turn's injected messages are the batches polled for it, none of them split or shared with another turn. */
  lemma {:induction false} BatchesArriveWhole(turns: seq<Turn>, polls: seq<Poll>, pending: seq<Message>, w: Setting,
                                              k: nat)
    requires Delivered(turns, polls, pending, w) && k <= |turns|
    ensures (if k < |turns| then turns[k].injected else pending) == Flat(PolledAt(polls, k))
  {
    if k < |turns| {
      WholeTurnAt(turns, polls, k);
    }
  }

  lemma {:induction false} WholeTurnAt(turns: seq<Turn>, polls: seq<Poll>, k: nat)
    requires InWholeTurns(turns, polls) && k < |turns|
    ensures turns[k].injected == Flat(PolledAt(polls, k))
  {
    if k < |turns| - 1 {
      WholeTurnAt(turns[..|turns| - 1], polls, k);
    }
  }

  /** Of two polls between the same turns, one returned nothing. */
  lemma {:induction false} OneSourcePerTurn(polls: seq<Poll>, i: nat, j: nat)
    requires OneAnswerPerTurn(polls) && i < j < |polls| && polls[i].turn == polls[j].turn
    ensures polls[i].batches == [] || polls[j].batches == []
  {
    var front, last := polls[..|polls| - 1], polls[|polls| - 1];
    if j < |polls| - 1 {
      OneSourcePerTurn(front, i, j);
    } else {
      PollIsCounted(front, i);
    }
  }

  lemma {:induction false} PollIsCounted(polls: seq<Poll>, i: nat)
    requires i < |polls|
    ensures |PolledAt(polls, polls[i].turn)| >= |polls[i].batches|
  {
    if i < |polls| - 1 {
      PollIsCounted(polls[..|polls| - 1], i);
    }
  }

  // ---------------------------------------------------------------- why a run ends

  /** A hook asked to stop, at a place the run had come to after its last turn. */
  predicate StopAsked(polls: seq<Poll>, turns: seq<Turn>, aborted: bool, w: Setting) {
    var said := SoFar(turns, w);
    && turns != []
    && (|| w.host.stopsAfter(said)
        || w.host.stopsBefore(said, AfterHook)
        || (w.host.stopsBefore(said, AfterSteering) && (aborted || LastWasEmpty(polls, Steering, turns)))
        || (w.host.stopsBefore(said, BeforeFollowUps)
            && (aborted || (LastWasEmpty(polls, Steering, turns) && !WantsMore(turns[|turns| - 1]))))
        || (w.host.stopsBefore(said, BeforeContinuations) && (aborted || LastWasEmpty(polls, FollowUp, turns))))
  }

  /** No hook asks to stop after these messages. */
  ghost predicate Silent(host: Host, said: seq<Message>) {
    !host.stopsAfter(said) && forall place :: !host.stopsBefore(said, place)
  }

  /**
   * The last turn wants no more, and after it steering, follow-ups and continuations were polled in
   * turn and had nothing.
   */
  predicate NothingLeftToDo(turns: seq<Turn>, polls: seq<Poll>, w: Setting) {
    && turns != []
    && (turns[|turns| - 1].reply.calls == [] || ShouldTerminate(turns[|turns| - 1].outcomes))
    && |polls| >= 3
    && polls[|polls| - 3] == Poll(Steering, [], |turns|)
    && polls[|polls| - 2] == Poll(FollowUp, [], |turns|)
    && polls[|polls| - 1] == Poll(Continuation, [], |turns|)
    && w.host.continues(SoFar(turns, w)) == []
  }

  lemma EndsWithNothingLeft(turns: seq<Turn>, polls: seq<Poll>, w: Setting)
    requires InOrder(polls, turns, w) && LastWasEmpty(polls, Continuation, turns)
    ensures NothingLeftToDo(turns, polls, w)
  {
    var n := |polls|;
    EveryPollWasAllowed(polls, turns, w, n - 1);
    assert turns[..|turns|] == turns && polls[..n - 1][n - 2] == polls[n - 2];
    EveryPollWasAllowed(polls, turns, w, n - 2);
    assert polls[..n - 2][n - 3] == polls[n - 3];
  }
}
