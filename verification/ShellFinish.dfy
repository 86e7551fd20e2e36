/**
 * Two threads race to finish a shell command: the reporter, when a status line arrived, and
 * the watcher, when the process died. Any number of other threads register callbacks.
 */
module ShellFinish {
  import opened Wrappers

  type Callback = nat

  /** The fields guarded by the callback lock. */
  datatype Handle = Handle(status: Option<int>, result: Option<int>, callbacks: seq<Callback>)

  /** Sets the result unless it is set, and hands over the callbacks to run. */
  function Finalize(h: Handle, code: int): (Handle, seq<Callback>) {
    if h.result.Some? then (h, []) else (h.(result := Some(code), callbacks := []), h.callbacks)
  }

  /** Registers a callback, or says that it must run at once. */
  function AddCallback(h: Handle, cb: Callback): (Handle, bool) {
    if h.result.None? then (h.(callbacks := h.callbacks + [cb]), false) else (h, true)
  }

  class BashHandle {
    var status: Option<int>
    var result: Option<int>
    var callbacks: seq<Callback>

    function View(): Handle
      reads this
    {
      Handle(status, result, callbacks)
    }

    constructor ()
      ensures View() == Handle(None, None, [])
    {
      status, result, callbacks := None, None, [];
    }

    method FinalizeLocked(code: int) returns (todo: seq<Callback>)
      modifies this
      ensures (View(), todo) == Finalize(old(View()), code)
      ensures status == old(status)
      ensures if old(result).None? then result == Some(code) && todo == old(callbacks) && callbacks == []
              else todo == [] && unchanged(this)
    {
      if result.Some? {
        return [];
      }
      result := Some(code);
      todo := callbacks;
      callbacks := [];
    }

    method AddDoneCallback(cb: Callback) returns (now: bool)
      modifies this
      ensures (View(), now) == AddCallback(old(View()), cb)
      ensures now <==> result.Some?
      ensures callbacks == old(callbacks) + if now then [] else [cb]
      ensures unchanged(`status, `result)
    {
      if result.None? {
        callbacks := callbacks + [cb];
        return false;
      }
      return true;
    }
  }

  // ---------------------------------------------------------------- the two threads

  datatype Reporter =
    | Reading
    | Storing(line: Option<int>)     // parsed, about to store it under the lock
    | Announcing(line: Option<int>)  // about to set the status-known event
    | Awaiting(status: int)            // waiting for the completion text
    | Reporting(status: int)           // about to finalize
    | ReporterRuns(todo: seq<Callback>)
    | ReporterOver

  datatype Watcher =
    | Living                           // the process has not ended
    | Waking(code: int)                // waiting for the status-known event
    | Judging(code: int)               // about to read the delivered status
    | Abandoning(code: int)            // no status: give up on the marker
    | Closing(code: int)               // about to finalize
    | WatcherRuns(todo: seq<Callback>)
    | WatcherOver

  datatype State = State(
    h: Handle, known: bool, terminal: bool, reporter: Reporter, watcher: Watcher,
    registered: nat, direct: multiset<Callback>, ran: multiset<Callback>,
    parsed: Option<int>, exit: Option<int>, settings: nat)

  const START: State :=
    State(Handle(None, None, []), false, false, Reading, Living, 0, multiset{}, multiset{}, None, None, 0)

  datatype Step =
    | Parse(line: Option<int>)         // the status channel gave a number, or nothing usable
    | ReadFails                        // reading the status raised
    | ReporterStep
    | Exit(code: int)
    | WatcherStep
    | MarkerSeen                       // the output pump settled the completion text
    | Register
    | RunDirect(cb: Callback)

  predicate Enabled(s: State, step: Step) {
    match step
    case Parse(_) => s.reporter.Reading?
    case ReadFails => s.reporter.Reading?
    case ReporterStep =>
      (match s.reporter
       case Reading => false
       case Awaiting(_) => s.terminal
       case ReporterOver => false
       case _ => true)
    case Exit(_) => s.watcher.Living?
    case WatcherStep =>
      (match s.watcher
       case Living => false
       case Waking(_) => s.known
       case WatcherOver => false
       case _ => true)
    case MarkerSeen => true
    case Register => true
    case RunDirect(cb) => cb in s.direct
  }

  function FinalizeStep(s: State, code: int): (State, seq<Callback>) {
    var (h, todo) := Finalize(s.h, code);
    (s.(h := h, settings := s.settings + if s.h.result.None? then 1 else 0), todo)
  }

  function Next(s: State, step: Step): State
    requires Enabled(s, step)
  {
    match step
    case Parse(line) => s.(reporter := Storing(line), parsed := line)
    case ReadFails => s.(reporter := Announcing(None))
    case ReporterStep => NextReporter(s)
    case Exit(code) => s.(watcher := Waking(code), exit := Some(code))
    case WatcherStep => NextWatcher(s)
    case MarkerSeen => s.(terminal := true)
    case Register =>
      var (h, now) := AddCallback(s.h, s.registered);
      s.(h := h, registered := s.registered + 1,
         direct := s.direct + if now then multiset{s.registered} else multiset{})
    case RunDirect(cb) => s.(direct := s.direct - multiset{cb}, ran := s.ran + multiset{cb})
  }

  function NextReporter(s: State): State
    requires Enabled(s, ReporterStep)
  {
    match s.reporter
    case Storing(status) => s.(h := s.h.(status := status), reporter := Announcing(status))
    case Announcing(status) =>
      s.(known := true, reporter := if status.Some? then Awaiting(status.value) else ReporterOver)
    case Awaiting(status) => s.(reporter := Reporting(status))
    case Reporting(status) => var (t, todo) := FinalizeStep(s, status); t.(reporter := ReporterRuns(todo))
    case ReporterRuns(todo) =>
      if todo == [] then s.(reporter := ReporterOver)
      else s.(reporter := ReporterRuns(todo[1..]), ran := s.ran + multiset{todo[0]})
  }

  function NextWatcher(s: State): State
    requires Enabled(s, WatcherStep)
  {
    match s.watcher
    case Waking(code) => s.(watcher := Judging(code))
    case Judging(code) =>
      s.(watcher := if s.h.status.None? && s.h.result.None? then Abandoning(code) else WatcherOver)
    case Abandoning(code) => s.(terminal := true, watcher := Closing(code))
    case Closing(code) => var (t, todo) := FinalizeStep(s, code); t.(watcher := WatcherRuns(todo))
    case WatcherRuns(todo) =>
      if todo == [] then s.(watcher := WatcherOver)
      else s.(watcher := WatcherRuns(todo[1..]), ran := s.ran + multiset{todo[0]})
  }

  // ---------------------------------------------------------------- the invariant

  function Copies(todo: seq<Callback>, cb: Callback): nat {
    multiset(todo)[cb]
  }

  /** In how many places a callback is: registered, waiting to be run by some thread, or run. */
  function Places(s: State, cb: Callback): nat {
    Copies(s.h.callbacks, cb) + s.direct[cb] + s.ran[cb]
    + (if s.reporter.ReporterRuns? then Copies(s.reporter.todo, cb) else 0)
    + (if s.watcher.WatcherRuns? then Copies(s.watcher.todo, cb) else 0)
  }

  /** Every registered callback is still to run or has run, exactly once in all. */
  ghost predicate CallbacksConserved(s: State) {
    && (forall cb: nat :: Places(s, cb) == if cb < s.registered then 1 else 0)
    && (s.h.result.Some? ==> s.h.callbacks == [])
  }

  /** The status each thread acts on, and which of them may finalize. */
  predicate StatusAgreed(s: State) {
    && s.settings == (if s.h.result.Some? then 1 else 0)
    && (match s.reporter
        case Reading => s.parsed.None? && s.h.status.None? && !s.known && s.h.result.None?
        case Storing(status) => status == s.parsed && s.h.status.None? && !s.known && s.h.result.None?
        case Announcing(status) => status == s.parsed == s.h.status && !s.known && s.h.result.None?
        case Awaiting(status) => Some(status) == s.parsed == s.h.status && s.known && s.h.result.None?
        case Reporting(status) => Some(status) == s.parsed == s.h.status && s.known && s.h.result.None?
        case ReporterRuns(_) => s.parsed.Some? && s.parsed == s.h.status && s.known && s.h.result.Some?
        case ReporterOver => s.parsed == s.h.status && s.known && (s.parsed.Some? ==> s.h.result.Some?))
    && (match s.watcher
        case Living => s.exit.None? && (s.parsed.None? ==> s.h.result.None?)
        case Waking(code) => s.exit == Some(code) && (s.parsed.None? ==> s.h.result.None?)
        case Judging(code) => s.exit == Some(code) && s.known && (s.parsed.None? ==> s.h.result.None?)
        case Abandoning(code) => s.exit == Some(code) && s.known && s.parsed.None? && s.h.result.None?
        case Closing(code) => s.exit == Some(code) && s.known && s.parsed.None? && s.h.result.None?
        case WatcherRuns(_) => s.exit.Some? && s.known && s.parsed.None? && s.h.result.Some?
        case WatcherOver => s.exit.Some? && s.known && (s.parsed.None? ==> s.h.result.Some?))
    && (s.h.result.Some? ==> s.h.result == if s.parsed.Some? then s.parsed else s.exit)
    && (s.h.result.Some? || s.reporter.Reporting? || s.watcher.Closing? ==> s.terminal)
  }

  ghost predicate Inv(s: State) {
    StatusAgreed(s) && CallbacksConserved(s)
  }

  lemma ReporterKeepsStatus(s: State)
    requires StatusAgreed(s) && Enabled(s, ReporterStep)
    ensures StatusAgreed(NextReporter(s))
  {
  }

  lemma WatcherKeepsStatus(s: State)
    requires StatusAgreed(s) && Enabled(s, WatcherStep)
    ensures StatusAgreed(NextWatcher(s))
  {
  }

  lemma StepKeepsStatus(s: State, step: Step)
    requires StatusAgreed(s) && Enabled(s, step)
    ensures StatusAgreed(Next(s, step))
  {
    match step {
      case ReporterStep => ReporterKeepsStatus(s);
      case WatcherStep => WatcherKeepsStatus(s);
      case _ =>
    }
  }

  lemma HeadOfTodo(todo: seq<Callback>, cb: Callback)
    requires todo != []
    ensures Copies(todo, cb) == Copies(todo[1..], cb) + if cb == todo[0] then 1 else 0
  {
    assert todo == [todo[0]] + todo[1..];
  }

  lemma ReporterBalance(s: State, cb: Callback)
    requires StatusAgreed(s) && Enabled(s, ReporterStep)
    ensures Places(NextReporter(s), cb) == Places(s, cb)
  {
    if s.reporter.ReporterRuns? && s.reporter.todo != [] {
      HeadOfTodo(s.reporter.todo, cb);
    }
  }

  lemma WatcherBalance(s: State, cb: Callback)
    requires StatusAgreed(s) && Enabled(s, WatcherStep)
    ensures Places(NextWatcher(s), cb) == Places(s, cb)
  {
    if s.watcher.WatcherRuns? && s.watcher.todo != [] {
      HeadOfTodo(s.watcher.todo, cb);
    }
  }

  lemma RegisterBalance(s: State, cb: Callback)
    ensures Places(Next(s, Register), cb) == Places(s, cb) + if cb == s.registered then 1 else 0
  {
    if s.h.result.None? {
      CopiesAppend(s.h.callbacks, s.registered, cb);
    }
  }

  lemma CopiesAppend(todo: seq<Callback>, last: Callback, cb: Callback)
    ensures Copies(todo + [last], cb) == Copies(todo, cb) + if cb == last then 1 else 0
  {
  }

  lemma DirectBalance(s: State, run: Callback, cb: Callback)
    requires run in s.direct
    ensures Places(Next(s, RunDirect(run)), cb) == Places(s, cb)
  {
  }

  /** No step loses or repeats a callback. */
  lemma Balance(s: State, step: Step, cb: Callback)
    requires StatusAgreed(s) && Enabled(s, step)
    ensures Places(Next(s, step), cb) == Places(s, cb) + if step.Register? && cb == s.registered then 1 else 0
  {
    match step {
      case ReporterStep => ReporterBalance(s, cb);
      case WatcherStep => WatcherBalance(s, cb);
      case Register => RegisterBalance(s, cb);
      case RunDirect(c) => DirectBalance(s, c, cb);
      case _ =>
    }
  }

  lemma StepKeepsCallbacks(s: State, step: Step)
    requires Inv(s) && Enabled(s, step)
    ensures CallbacksConserved(Next(s, step))
  {
    forall cb: nat
      ensures Places(Next(s, step), cb) == if cb < Next(s, step).registered then 1 else 0
    {
      Balance(s, step, cb);
    }
    StepKeepsEmptied(s, step);
  }

  lemma StepKeepsEmptied(s: State, step: Step)
    requires Enabled(s, step) && (s.h.result.Some? ==> s.h.callbacks == [])
    ensures Next(s, step).h.result.Some? ==> Next(s, step).h.callbacks == []
  {
  }

  function Run(s: State, steps: seq<Step>): Option<State>
    decreases |steps|
  {
    if steps == [] then Some(s)
    else if !Enabled(s, steps[0]) then None
    else Run(Next(s, steps[0]), steps[1..])
  }

  lemma {:induction false} RunKeepsInv(s: State, steps: seq<Step>)
    requires Inv(s) && Run(s, steps).Some?
    ensures Inv(Run(s, steps).value)
    decreases |steps|
  {
    if steps != [] {
      StepKeepsStatus(s, steps[0]);
      StepKeepsCallbacks(s, steps[0]);
      RunKeepsInv(Next(s, steps[0]), steps[1..]);
    }
  }

  /**
   * Under every interleaving the result is set at most once, to the delivered status if one
   * was parsed and to the exit code otherwise; the completion text is settled by then, and no callback
   * runs twice or early.
   */
  lemma ResultIsSetOnce(steps: seq<Step>)
    requires Run(START, steps).Some?
    ensures
      var s := Run(START, steps).value;
      && s.settings <= 1 && (s.settings == 1 <==> s.h.result.Some?)
      && (s.h.result.Some? ==> s.terminal && s.h.result == if s.parsed.Some? then s.parsed else s.exit)
      && (forall cb: nat :: s.ran[cb] <= 1)
      && (s.h.result.None? ==> s.ran == multiset{})
  {
    StartInv();
    RunKeepsInv(START, steps);
    RunKeepsQuiet(START, steps);
    var s := Run(START, steps).value;
    assert forall cb: nat :: s.ran[cb] <= Places(s, cb);
  }

  /** Before the result is set nothing runs. */
  predicate Quiet(s: State) {
    s.h.result.None? ==> s.ran == multiset{} && s.direct == multiset{}
  }

  lemma {:induction false} RunKeepsQuiet(s: State, steps: seq<Step>)
    requires Inv(s) && Quiet(s) && Run(s, steps).Some?
    ensures Quiet(Run(s, steps).value)
    decreases |steps|
  {
    if steps != [] {
      StepKeepsStatus(s, steps[0]);
      StepKeepsCallbacks(s, steps[0]);
      RunKeepsQuiet(Next(s, steps[0]), steps[1..]);
    }
  }

  lemma StartInv()
    ensures Inv(START)
  {
  }

  /** When both threads are over and no direct call is under way, every callback ran exactly once. */
  lemma EveryCallbackRan(steps: seq<Step>)
    requires Run(START, steps).Some?
    requires
      var s := Run(START, steps).value;
      s.reporter.ReporterOver? && s.watcher.WatcherOver? && s.direct == multiset{}
    ensures
      var s := Run(START, steps).value;
      s.h.result.Some? && forall cb: nat :: s.ran[cb] == if cb < s.registered then 1 else 0
  {
    StartInv();
    RunKeepsInv(START, steps);
    var s := Run(START, steps).value;
    assert forall cb: nat :: s.ran[cb] == Places(s, cb);
  }

  // ---------------------------------------------------------------- the threads get there

  predicate BothOver(s: State) {
    s.reporter.ReporterOver? && s.watcher.WatcherOver?
  }

  /** The process is gone, the status channel has been read, and the completion text is settled. */
  predicate NothingAwaited(s: State) {
    !s.watcher.Living? && !s.reporter.Reading? && s.terminal
  }

  /** Then no thread waits for the other: unless both are over, one of them can go on. */
  lemma SomeThreadGoesOn(s: State)
    requires StatusAgreed(s) && NothingAwaited(s)
    ensures BothOver(s) <==> !Enabled(s, ReporterStep) && !Enabled(s, WatcherStep)
  {
  }

  /** Upper bounds on the steps a thread still takes, callbacks it has yet to be handed aside. */
  function ReporterLeft(r: Reporter): nat {
    match r
    case Reading => 6
    case Storing(_) => 5
    case Announcing(_) => 4
    case Awaiting(_) => 3
    case Reporting(_) => 2
    case ReporterRuns(todo) => 1 + |todo|
    case ReporterOver => 0
  }

  function WatcherLeft(w: Watcher): nat {
    match w
    case Living => 6
    case Waking(_) => 5
    case Judging(_) => 4
    case Abandoning(_) => 3
    case Closing(_) => 2
    case WatcherRuns(todo) => 1 + |todo|
    case WatcherOver => 0
  }

  function WorkLeft(s: State): nat {
    |s.h.callbacks| + ReporterLeft(s.reporter) + WatcherLeft(s.watcher)
  }

  lemma ReporterWorks(s: State)
    requires Enabled(s, ReporterStep)
    ensures WorkLeft(NextReporter(s)) < WorkLeft(s)
    ensures NothingAwaited(s) ==> NothingAwaited(NextReporter(s))
  {
  }

  lemma WatcherWorks(s: State)
    requires Enabled(s, WatcherStep)
    ensures WorkLeft(NextWatcher(s)) < WorkLeft(s)
    ensures NothingAwaited(s) ==> NothingAwaited(NextWatcher(s))
  {
  }

  /** Then the threads' own steps, at most so many, set the result and finish. */
  lemma {:induction false} ThreadsFinish(s: State) returns (steps: seq<Step>)
    requires StatusAgreed(s) && NothingAwaited(s)
    ensures forall step :: step in steps ==> step.ReporterStep? || step.WatcherStep?
    ensures |steps| <= WorkLeft(s) && Run(s, steps).Some?
    ensures BothOver(Run(s, steps).value) && Run(s, steps).value.h.result.Some?
    decreases WorkLeft(s)
  {
    SomeThreadGoesOn(s);
    if BothOver(s) {
      steps := [];
    } else {
      var step := if Enabled(s, ReporterStep) then ReporterStep else WatcherStep;
      StepKeepsStatus(s, step);
      if step == ReporterStep {
        ReporterWorks(s);
      } else {
        WatcherWorks(s);
      }
      var rest := ThreadsFinish(Next(s, step));
      steps := [step] + rest;
      assert steps[1..] == rest;
    }
  }

  /**
   * No run gets stuck: once nothing outside is awaited, some thread can go on until both are
   * over, however they take turns they get there, and every callback has run by then but those that other
   * threads run themselves.
   */
  lemma NoRunGetsStuck(steps: seq<Step>) returns (more: seq<Step>)
    requires Run(START, steps).Some? && NothingAwaited(Run(START, steps).value)
    ensures
      var s := Run(START, steps).value;
      && (BothOver(s) <==> !Enabled(s, ReporterStep) && !Enabled(s, WatcherStep))
      && (Enabled(s, ReporterStep) ==> WorkLeft(NextReporter(s)) < WorkLeft(s))
      && (Enabled(s, WatcherStep) ==> WorkLeft(NextWatcher(s)) < WorkLeft(s))
    ensures forall step :: step in more ==> step.ReporterStep? || step.WatcherStep?
    ensures Run(Run(START, steps).value, more).Some?
    ensures
      var t := Run(Run(START, steps).value, more).value;
      && BothOver(t) && t.h.result.Some?
      && forall cb: nat :: t.ran[cb] + t.direct[cb] == if cb < t.registered then 1 else 0
  {
    StartInv();
    RunKeepsInv(START, steps);
    var s := Run(START, steps).value;
    SomeThreadGoesOn(s);
    if Enabled(s, ReporterStep) {
      ReporterWorks(s);
    }
    if Enabled(s, WatcherStep) {
      WatcherWorks(s);
    }
    more := ThreadsFinish(s);
    RunKeepsInv(s, more);
    var t := Run(s, more).value;
    assert forall cb: nat :: t.ran[cb] + t.direct[cb] == Places(t, cb);
  }
}
