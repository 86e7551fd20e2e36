/**
 * Where the interrupt protocol and its documentation part: the window between finishing
 * a request and sending its done event, and the time a request with a taken id waits.
 */
module InterruptWindow {
  import opened Wrappers
  import opened KernelBookkeeping
  import opened InterruptProtocol
  import opened InterruptEveryRun

  // ---------------------------------------------------------------- the documented window

  /** The documentation keeps a request targetable until its done event is sent. */
  function OpenUntilDone(s: State): seq<Request> {
    if s.pc.Idle? then s.queue else [s.pc.req] + s.queue
  }

  /** In every run these are exactly the accepted requests without a done event. */
  lemma OpenUntilDoneExactly(steps: seq<Step>, n: nat)
    requires Run(START, steps).Some? && n < Run(START, steps).value.next
    ensures
      var s := Run(START, steps).value;
      Done(n) !in s.hist <==> n in Serials(OpenUntilDone(s))
  {
    EveryRequestIsDone(steps, n);
    var s := Run(START, steps).value;
    assert multiset(s.hist)[Done(n)] == 0 <==> Done(n) !in s.hist;
    assert forall q :: q in OpenUntilDone(s) <==> q in s.queue || (!s.pc.Idle? && q == s.pc.req);
    assert Serials(OpenUntilDone(s)) == Owed(s);
  }

  /** The code has finished the current request, but its done event is still to be sent. */
  predicate FinishedEarly(s: State) {
    !s.pc.Idle? && Finished(s.pc.req.serial) in s.hist
  }

  /** A message for the current request that comes after the code closed its window. */
  predicate ComesLate(s: State, msg: Option<Rid>) {
    FinishedEarly(s) && (msg.None? || msg.value == s.pc.req.rid)
  }

  /** The code's rule names the documented request if and only if the message does not come late. */
  lemma DocumentedRuleExactly(s: State, msg: Option<Rid>)
    requires Order(s)
    ensures Addressee(Open(s), msg) == Addressee(OpenUntilDone(s), msg) <==> !ComesLate(s, msg)
  {
    if FinishedEarly(s) {
      assert ([s.pc.req] + s.queue)[1..] == s.queue;
      AddresseeIsOpen(s.queue, msg);
    }
  }

  /** What the history says an interrupt message was resolved to. */
  function ResolvedTo(h: seq<Event>, who: Option<nat>): seq<Event> {
    if who.Some? then h + [Resolved(who.value)] else h
  }

  /**
   * A message does what the documentation says, targeting or parking for the documented
   * request or being dropped, if and only if it does not come late.
   */
  lemma PromiseHoldsExactly(s: State, msg: Option<Rid>)
    requires Inv(s) && !Locked(s.pc)
    ensures InterruptStep(s, msg).hist == ResolvedTo(s.hist, Addressee(OpenUntilDone(s), msg)) <==> !ComesLate(s, msg)
    ensures Addressee(Open(s), msg).Some? ==> exists i :: AddressedAt(s, msg, i)
    ensures Addressee(Open(s), msg).None? ==> InterruptStep(s, msg) == s
  {
    DocumentedRuleExactly(s, msg);
    RequestFindsAddressee(s, msg);
    assert InterruptStep(s, msg).hist == ResolvedTo(s.hist, Addressee(Open(s), msg));
    DifferentEnds(s.hist, Addressee(Open(s), msg), Addressee(OpenUntilDone(s), msg));
  }

  lemma DifferentEnds(h: seq<Event>, a: Option<nat>, b: Option<nat>)
    ensures ResolvedTo(h, a) == ResolvedTo(h, b) <==> a == b
  {
    assert a.Some? ==> ResolvedTo(h, a)[|h|] == Resolved(a.value) && |ResolvedTo(h, a)| == |h| + 1;
    assert b.Some? ==> ResolvedTo(h, b)[|h|] == Resolved(b.value) && |ResolvedTo(h, b)| == |h| + 1;
  }

  /** A late message without an id is parked, and it is the next request that it will cancel. */
  lemma LateInterruptGoesToTheNext(s: State)
    requires Inv(s) && !Locked(s.pc) && FinishedEarly(s) && s.queue != []
    ensures
      var t := InterruptStep(s, None);
      && Addressee(OpenUntilDone(s), None) == Some(s.pc.req.serial)
      && t == s.(g := s.g.(parkedAny := true), hist := s.hist + [Resolved(s.queue[0].serial)])
      && s.queue[0].serial != s.pc.req.serial
  {
    assert s.queue[0] in s.queue;
    assert s.queue[0].rid in Rids(Open(s));
    SlotNamesCurrent(s);
  }

  /** A late message with the id is dropped, or parked for a later request that reuses the id. */
  lemma LateInterruptById(s: State)
    requires Inv(s) && !Locked(s.pc) && FinishedEarly(s)
    ensures
      var rid := s.pc.req.rid;
      var t := InterruptStep(s, Some(rid));
      if rid !in s.g.inflight then t == s
      else t.g == s.g.(parkedIds := s.g.parkedIds + {rid})
           && exists q :: q in s.queue && q.rid == rid && Resolved(q.serial) in t.hist
  {
    SlotNamesCurrent(s);
    var rid := s.pc.req.rid;
    if rid !in s.g.inflight {
      AddresseeNone(s.queue, Some(rid));
    } else {
      var i :| 0 <= i < |s.queue| && s.queue[i].rid == rid;
      AddresseeAt(s.queue, Some(rid), i);
      assert s.queue[i] in s.queue;
    }
  }

  // ---------------------------------------------------------------- a polite run that is hit by it

  const NEXT_CELL: Request := Request("b", 1, Cell)

  /** The lone cell is finished, its done event is not sent yet, and another cell waits. */
  const BEFORE_DONE: State :=
    State(QUIET.(inflight := {"b"}), Replying(LONE_CELL, CellFinally(false)), [NEXT_CELL], 2,
          [Accepted(0)] + [Accepted(1)] + [Finished(0)])

  /** The lone cell is over and about to be finished, and another cell waits. */
  const FINALIZING: State :=
    State(QUIET.(inflight := {"a", "b"}, finishing := Some("a")), Closing(LONE_CELL, CellFinally(false)),
          [NEXT_CELL], 2, [Accepted(0)] + [Accepted(1)])

  lemma ReachFinalizing(rest: seq<Step>, t: State) returns (steps: seq<Step>)
    requires Leads(FINALIZING, rest, t, true)
    ensures Leads(START, steps, t, true)
  {
    hide Run, NoReuseTaken, WaitsForDone, Leads;
    var s0 := FINALIZING.(pc := Returning(LONE_CELL));
    var s1 := FINALIZING.(pc := PostRun(LONE_CELL));
    assert RETURNED.g.inflight + {"b"} == {"a", "b"};
    assert Next(RETURNED, Accept("b", Cell)) == s0;
    steps := [Advance] + rest;
    Prepend(s1, Advance, rest, t, true);
    Prepend(s0, Advance, steps, t, true); steps := [Advance] + steps;
    Prepend(RETURNED, Accept("b", Cell), steps, t, true); steps := [Accept("b", Cell)] + steps;
    steps := ReachReturned(steps, t, true);
  }

  lemma ReachBeforeDone(rest: seq<Step>, t: State) returns (steps: seq<Step>)
    requires Leads(BEFORE_DONE, rest, t, true)
    ensures Leads(START, steps, t, true)
  {
    hide Run, NoReuseTaken, WaitsForDone, Leads;
    var r, s2 := LONE_CELL, FINALIZING;
    var s3 := s2.(pc := Finishing(r, CellFinally(false), First));
    var s4 := s2.(pc := Finishing(r, CellFinally(false), Second), g := s2.g.(finishing := None));
    var s5 := s4.(pc := Finishing(r, CellFinally(false), Third));
    assert s5.g.inflight - {"a"} == {"b"};
    assert AdvanceStep(s5) == BEFORE_DONE;
    steps := [Advance] + rest;
    Prepend(s5, Advance, rest, t, true);
    Prepend(s4, Advance, steps, t, true); steps := [Advance] + steps;
    Prepend(s3, Advance, steps, t, true); steps := [Advance] + steps;
    Prepend(s2, Advance, steps, t, true); steps := [Advance] + steps;
    steps := ReachFinalizing(steps, t);
  }

  /** The next cell, cancelled before its first step. */
  const NEXT_HIT: State :=
    State(QUIET.(inflight := {"b"}, task := Live, rid := Some("b"), interrupted := true), Running(NEXT_CELL), [], 2,
          BEFORE_DONE.hist + [Resolved(1)] + [Done(0)] + [Hit(1)])

  lemma FromBeforeDone() returns (steps: seq<Step>)
    ensures Leads(BEFORE_DONE, [Interrupt(None)] + steps, NEXT_HIT, true)
  {
    assert Finished(0) in BEFORE_DONE.hist && Open(BEFORE_DONE) == [NEXT_CELL];
    var s1 := BEFORE_DONE.(g := BEFORE_DONE.g.(parkedAny := true), hist := BEFORE_DONE.hist + [Resolved(1)]);
    assert Next(BEFORE_DONE, Interrupt(None)) == s1;
    var s2 := s1.(pc := Idle, hist := s1.hist + [Done(0)]);
    var s3 := s2.(pc := Starting(NEXT_CELL), queue := []);
    var s4 := s3.(pc := Activating(NEXT_CELL, First), g := s3.g.(rid := Some("b")));
    var s5 := s4.(pc := Activating(NEXT_CELL, Second), g := s4.g.(task := Live));
    assert AdvanceStep(s1) == s2 && AdvanceStep(s2) == s3 && AdvanceStep(s3) == s4 && AdvanceStep(s4) == s5;
    assert AdvanceStep(s5) == NEXT_HIT;
    steps := [];
    Prepend(s5, Advance, steps, NEXT_HIT, true); steps := [Advance] + steps;
    Prepend(s4, Advance, steps, NEXT_HIT, true); steps := [Advance] + steps;
    Prepend(s3, Advance, steps, NEXT_HIT, true); steps := [Advance] + steps;
    Prepend(s2, Advance, steps, NEXT_HIT, true); steps := [Advance] + steps;
    Prepend(s1, Advance, steps, NEXT_HIT, true); steps := [Advance] + steps;
    Prepend(BEFORE_DONE, Interrupt(None), steps, NEXT_HIT, true);
  }

  /**
   * A polite host interrupts while the first cell is documented to be targetable, and the
   * second cell is cancelled instead; the first one never hears of it.
   */
  lemma LateInterruptCancelsTheNextCell()
    ensures exists before, steps, s, t ::
              && Leads(START, before, s, true) && Leads(s, [Interrupt(None)] + steps, t, true)
              && Addressee(OpenUntilDone(s), None) == Some(0) && Done(0) !in s.hist
              && Hit(1) in t.hist && Hit(0) !in t.hist && Resolved(0) !in t.hist
  {
    assert Leads(BEFORE_DONE, [], BEFORE_DONE, true);
    var before := ReachBeforeDone([], BEFORE_DONE);
    var steps := FromBeforeDone();
    assert OpenUntilDone(BEFORE_DONE)[0] == LONE_CELL;
    var s, t := BEFORE_DONE, NEXT_HIT;
    assert Done(0) !in s.hist && Hit(1) in t.hist && Hit(0) !in t.hist && Resolved(0) !in t.hist;
  }

  // ---------------------------------------------------------------- a request whose id was taken

  predicate Waits(s: State, q: Request) {
    q in s.queue || s.pc == Starting(q)
  }

  /** Only once in the queue. */
  ghost predicate Once(rs: seq<Request>, rid: Rid) {
    forall i, j :: 0 <= i < j < |rs| ==> !(rs[i].rid == rid && rs[j].rid == rid)
  }

  /** A waiting request that is not in flight, and that no other request stands in for. */
  ghost predicate Forgotten(s: State, q: Request) {
    && OwnSlots(s) && Waits(s, q)
    && q.rid !in s.g.inflight && q.rid !in s.g.parkedIds
    && Once(s.queue, q.rid) && (s.pc == Starting(q) ==> q.rid !in Rids(s.queue))
    && NotInTheWay(s, q)
  }

  /** Where the backstop of a request that has no slot left ends up. */
  lemma BackstopRuns(s: State)
    requires s.pc.Closing? && s.pc.clause.BackstopClause? && NoSlot(s.g)
    ensures
      var t := Advances(s, 4);
      && t.pc == Replying(s.pc.req, BackstopClause) && t.queue == s.queue && NoSlot(t.g)
      && t.g.inflight == s.g.inflight - {s.pc.req.rid} && t.g.parkedIds == s.g.parkedIds - {s.pc.req.rid}
  {
    var s1 := AdvanceStep(s);
    var s2 := AdvanceStep(s1);
    var s3 := AdvanceStep(s2);
    assert Advances(s, 4) == Advances(s1, 3) == Advances(s2, 2) == Advances(s3, 1) == AdvanceStep(s3);
  }

  /** The backstop that takes a reused id does. */
  lemma BackstopShape(s: State)
    requires Inv(s) && TakesReusedId(s, Advance)
    ensures NoSlot(s.g)
    ensures
      var t := Advances(s, 4);
      && OwnSlots(t) && t.pc == Replying(s.pc.req, BackstopClause) && t.queue == s.queue && t.g.finishing.None?
      && t.g.inflight == s.g.inflight - {s.pc.req.rid} && s.pc.req.rid !in t.g.parkedIds
  {
    hide AdvanceStep, Advances;
    BackstopRuns(s);
  }

  /** The backstop that takes a reused id leaves the request that reuses it forgotten. */
  lemma BackstopForgets(s: State, q: Request)
    requires Inv(s) && TakesReusedId(s, Advance) && q in s.queue && q.rid == s.pc.req.rid
    ensures Forgotten(Advances(s, 4), q)
  {
    BackstopShape(s);
    assert Open(s) == s.queue && DistinctRids(s.queue);
    assert Once(s.queue, q.rid);
  }

  /** In between the reader is locked out, and a SIGINT finds nothing to do. */
  lemma NothingToSignal(s: State, swallowed: bool)
    requires NoSlot(s.g) && !s.pc.Dead?
    ensures SigintStep(s, swallowed) == s
  {
  }

  lemma OnceInTail(rs: seq<Request>, rid: Rid)
    requires rs != [] && Once(rs, rid)
    ensures Once(rs[1..], rid) && (rs[0].rid == rid ==> rid !in Rids(rs[1..]))
  {
    assert forall i :: 0 <= i < |rs| - 1 ==> rs[1..][i] == rs[i + 1];
  }

  lemma OnceWithOther(rs: seq<Request>, r: Request, rid: Rid)
    requires Once(rs, rid) && r.rid != rid
    ensures Once(rs + [r], rid) && (rid in Rids(rs + [r]) <==> rid in Rids(rs))
  {
    assert forall q :: q in rs + [r] <==> q in rs || q == r;
  }

  /** The request that the main thread holds does not stand in for a forgotten one. */
  predicate NotInTheWay(s: State, q: Request) {
    !s.pc.Idle? && s.pc != Starting(q) && s.pc.req.rid == q.rid ==>
      s.g.finishing.None? && (s.pc.Dead? || (s.pc.Replying? && s.pc.clause.BackstopClause?))
  }

  lemma IdStaysOut(s: State, step: Step, rid: Rid)
    requires Enabled(s, step) && !(step.Accept? && step.rid == rid)
    requires rid !in s.g.inflight && rid !in s.g.parkedIds
    ensures rid !in Next(s, step).g.inflight && rid !in Next(s, step).g.parkedIds
  {
    match step {
      case Advance => AdvanceAddsNoId(s);
      case Sigint(swallowed) => SigintAddsNoId(s, swallowed);
      case _ =>
    }
  }

  lemma AdvanceAddsNoId(s: State)
    requires Enabled(s, Advance)
    ensures AddsNoId(s.g, AdvanceStep(s).g)
  {
    if !s.pc.Idle? {
      ConsumingAddsNoId(s.g, s.pc.req.rid);
      DroppingAddsNoId(s.g, s.pc.req.rid);
    }
    hide ConsumePending, DropRequest;
  }

  predicate AddsNoId(g: Globals, h: Globals) {
    h.inflight <= g.inflight && h.parkedIds <= g.parkedIds
  }

  lemma ConsumingAddsNoId(g: Globals, rid: Rid)
    ensures AddsNoId(g, ConsumePending(g, rid).0)
  {
  }

  lemma DroppingAddsNoId(g: Globals, rid: Rid)
    ensures AddsNoId(g, DropRequest(g, rid))
  {
  }

  lemma SigintAddsNoId(s: State, swallowed: bool)
    requires !s.pc.Dead?
    ensures SigintStep(s, swallowed).g.inflight == s.g.inflight && SigintStep(s, swallowed).g.parkedIds == s.g.parkedIds
  {
  }

  lemma ForgottenAccept(s: State, q: Request, rid: Rid, kind: Kind)
    requires Forgotten(s, q) && rid != q.rid
    ensures Forgotten(AcceptStep(s, rid, kind), q)
  {
    OnceWithOther(s.queue, Request(rid, s.next, kind), q.rid);
  }

  lemma ForgottenDequeue(s: State, q: Request)
    requires Forgotten(s, q) && s.pc.Idle? && s.queue != []
    ensures Forgotten(AdvanceStep(s), q)
  {
    OnceInTail(s.queue, q.rid);
    assert s.queue == [s.queue[0]] + s.queue[1..];
    if s.queue[0] != q {
      assert q in s.queue[1..];
    }
  }

  /** Steps that leave the queue alone. */
  lemma ForgottenInPlace(s: State, step: Step, q: Request)
    requires Forgotten(s, q) && Enabled(s, step) && !step.Accept? && !(step.Advance? && s.pc.Idle?)
    requires OwnSlots(Next(s, step)) && Waits(Next(s, step), q)
    requires q.rid !in Next(s, step).g.inflight && q.rid !in Next(s, step).g.parkedIds
    requires s.pc == Starting(q) ==> Next(s, step).pc == Starting(q)
    ensures Forgotten(Next(s, step), q)
  {
    QueueStays(s, step);
    NotInTheWayStays(s, step, q);
  }

  lemma QueueStays(s: State, step: Step)
    requires Enabled(s, step) && !step.Accept? && !(step.Advance? && s.pc.Idle?)
    ensures Next(s, step).queue == s.queue
    ensures !Next(s, step).pc.Idle? ==> !s.pc.Idle? && Next(s, step).pc.req == s.pc.req
    ensures Next(s, step).pc.Starting? ==> Next(s, step).pc == s.pc
  {
  }

  lemma NotInTheWayStays(s: State, step: Step, q: Request)
    requires OwnSlots(s) && NotInTheWay(s, q) && Enabled(s, step) && !step.Accept? && !(step.Advance? && s.pc.Idle?)
    requires s.pc == Starting(q) ==> Next(s, step).pc == Starting(q)
    ensures NotInTheWay(Next(s, step), q)
  {
    QueueStays(s, step);
  }

  /**
   * Whatever the threads do, a forgotten request stays forgotten while it waits, unless its id is
   * given out once more.
   */
  lemma ForgottenStays(s: State, step: Step, q: Request)
    requires Forgotten(s, q) && Enabled(s, step) && !(step.Accept? && step.rid == q.rid)
    ensures Waits(Next(s, step), q) ==> Forgotten(Next(s, step), q)
  {
    if step.Accept? {
      ForgottenAccept(s, q, step.rid, step.kind);
    } else if step.Advance? && s.pc.Idle? {
      ForgottenDequeue(s, q);
    } else if Waits(Next(s, step), q) {
      StepKeepsOwnSlots(s, step);
      IdStaysOut(s, step, q.rid);
      StartingStays(s, step, q);
      ForgottenInPlace(s, step, q);
    }
  }

  lemma StartingStays(s: State, step: Step, q: Request)
    requires Forgotten(s, q) && Enabled(s, step) && !step.Accept? && Waits(Next(s, step), q)
    ensures s.pc == Starting(q) ==> Next(s, step).pc == Starting(q)
  {
    if s.pc == Starting(q) {
      QueueStays(s, step);
      assert q.rid !in Rids(s.queue);
    }
  }

  predicate WaitsThroughout(s: State, steps: seq<Step>, q: Request)
    decreases |steps|
  {
    Waits(s, q) && (steps == [] || (Enabled(s, steps[0]) && WaitsThroughout(Next(s, steps[0]), steps[1..], q)))
  }

  /**
   * Through any steps of any thread, while a forgotten request waits, no message with its id
   * has any effect, unless the id is given out once more.
   */
  lemma {:induction false} ForgottenWhileItWaits(s: State, steps: seq<Step>, q: Request)
    requires Forgotten(s, q) && WaitsThroughout(s, steps, q) && Run(s, steps).Some?
    requires forall step :: step in steps ==> !(step.Accept? && step.rid == q.rid)
    ensures
      var t := Run(s, steps).value;
      Forgotten(t, q) && RequestInterrupt(t.g, Some(q.rid)) == (t.g, false)
    decreases |steps|
  {
    if steps != [] {
      assert steps[0] in steps;
      ForgottenStays(s, steps[0], q);
      ForgottenWhileItWaits(Next(s, steps[0]), steps[1..], q);
    }
  }

  /** The critical section of the harmful backstop, from the step that takes the lock to the one before it lets go. */
  predicate InHarmfulSection(s: State, u: State)
    requires Enabled(s, Advance)
  {
    u == AdvanceStep(s) || u == Advances(s, 2) || u == Advances(s, 3)
  }

  lemma HarmfulSection(s: State, u: State)
    requires Inv(s) && TakesReusedId(s, Advance) && InHarmfulSection(s, u)
    ensures NoSlot(u.g) && Locked(u.pc) && u.pc.Finishing?
    ensures InHarmfulSection(s, AdvanceStep(u)) || AdvanceStep(u) == Advances(s, 4)
  {
    var s1 := AdvanceStep(s);
    var s2 := AdvanceStep(s1);
    var s3 := AdvanceStep(s2);
    assert Advances(s, 2) == Advances(s1, 1) == s2;
    assert Advances(s, 3) == Advances(s1, 2) == Advances(s2, 1) == s3;
    assert Advances(s, 4) == Advances(s1, 3) == Advances(s2, 2) == Advances(s3, 1) == AdvanceStep(s3);
  }

  /**
   * From the harmful step on, through any steps of any thread: while the request that reuses
   * the id waits, either the backstop still holds the lock, so that no message is read, or a message with
   * the id has no effect, unless the id is given out once more.
   */
  lemma {:induction false} ForgottenFromTheHarmfulStep(s: State, u: State, steps: seq<Step>, q: Request)
    requires Inv(s) && TakesReusedId(s, Advance) && q in s.queue && q.rid == s.pc.req.rid
    requires InHarmfulSection(s, u) && WaitsThroughout(u, steps, q) && Run(u, steps).Some?
    requires forall step :: step in steps ==> !(step.Accept? && step.rid == q.rid)
    ensures
      var t := Run(u, steps).value;
      Locked(t.pc) || RequestInterrupt(t.g, Some(q.rid)) == (t.g, false)
    decreases |steps|
  {
    HarmfulSection(s, u);
    if steps != [] {
      var rest := steps[1..];
      assert forall step :: step in rest ==> step in steps;
      if steps[0].Sigint? {
        NothingToSignal(u, steps[0].swallowed);
        ForgottenFromTheHarmfulStep(s, u, rest, q);
      } else if steps[0].Advance? {
        if InHarmfulSection(s, AdvanceStep(u)) {
          ForgottenFromTheHarmfulStep(s, AdvanceStep(u), rest, q);
        } else {
          BackstopForgets(s, q);
          ForgottenWhileItWaits(AdvanceStep(u), rest, q);
        }
      }
    }
  }

  /** Giving the id out once more makes a message with it count again: it is parked for the first request of that id. */
  lemma CountsAgainOnceAccepted(s: State, q: Request, kind: Kind)
    requires Forgotten(s, q) && Enabled(s, Accept(q.rid, kind))
    ensures
      var t := AcceptStep(s, q.rid, kind);
      RequestInterrupt(t.g, Some(q.rid)) == (t.g.(parkedIds := t.g.parkedIds + {q.rid}), false)
  {
  }

  /** From its activation on a request can be interrupted by its id again: the signal hits it. */
  lemma TargetableOnceActive(s: State, swallowed: bool)
    requires OwnSlots(s) && s.pc.Running?
    ensures
      var t := InterruptStep(s, Some(s.pc.req.rid));
      && t.g.target == Some(s.pc.req.rid) && RequestInterrupt(s.g, Some(s.pc.req.rid)).1
      && Hit(s.pc.req.serial) in SigintStep(t, swallowed).hist
  {
  }

  // ---------------------------------------------------------------- snapshots and restores

  /** In every run: the clause that finishes a request belongs to its handler or to the backstop. */
  predicate OwnClause(s: State) {
    match s.pc
    case PostRun(req) => req.kind.Cell?
    case Closing(req, clause) => Belongs(clause, req.kind)
    case Finishing(req, clause, _) => Belongs(clause, req.kind)
    case Replying(req, clause) => Belongs(clause, req.kind)
    case _ => true
  }

  predicate Belongs(clause: Clause, kind: Kind) {
    match clause
    case StateTry => kind.StateChange?
    case StateExcept => kind.StateChange?
    case CellFinally(_) => kind.Cell?
    case BackstopClause => true
  }

  lemma StepKeepsOwnClause(s: State, step: Step)
    requires OwnClause(s) && Enabled(s, step)
    ensures OwnClause(Next(s, step))
  {
  }

  lemma {:induction false} RunKeepsOwnClause(s: State, steps: seq<Step>)
    requires OwnClause(s) && Run(s, steps).Some?
    ensures OwnClause(Run(s, steps).value)
    decreases |steps|
  {
    if steps != [] {
      StepKeepsOwnClause(s, steps[0]);
      RunKeepsOwnClause(Next(s, steps[0]), steps[1..]);
    }
  }

  predicate InBackstop(pc: Pc) {
    (pc.Closing? || pc.Finishing? || pc.Replying?) && pc.clause.BackstopClause?
  }

  /**
   * A snapshot or restore whose task is over is answered from its real outcome unless it
   * reaches the backstop. It gets there exactly if it never ran, if sending its reply fails, or if a second
   * targeted SIGINT arrives while the first one is being handled.
   */
  lemma StateRequestEscapesExactly(s: State, step: Step)
    requires OwnClause(s) && Enabled(s, step) && !s.pc.Idle? && s.pc.req.kind.StateChange? && !InBackstop(s.pc)
    ensures InBackstop(Next(s, step).pc) <==>
              || step.StartFails?
              || step.ReplyFails?
              || (step.Sigint? && HandleSigint(s.g).1.RaisedInFinishing?
                  && (s.pc.Closing? || s.pc.Finishing?) && s.pc.clause.StateExcept?)
  {
  }

  const SNAPSHOT: Request := Request("a", 0, StateChange)

  const SNAPSHOT_RUNS: State :=
    State(QUIET.(inflight := {"a"}, task := Live, rid := Some("a")), Running(SNAPSHOT), [], 1, [Accepted(0)])

  /** The snapshot's task is over: whatever it wrote and pruned is committed. */
  const SNAPSHOT_DONE: State :=
    State(QUIET.(inflight := {"a"}, finishing := Some("a")), Returning(SNAPSHOT), [], 1, [Accepted(0)])

  lemma ReachSnapshotRuns(rest: seq<Step>, t: State) returns (steps: seq<Step>)
    requires Leads(SNAPSHOT_RUNS, rest, t, true)
    ensures Leads(START, steps, t, true)
  {
    hide Run, NoReuseTaken, WaitsForDone, Leads;
    var r := SNAPSHOT;
    var g := QUIET.(inflight := {"a"});
    var s1 := State(g, Idle, [r], 1, [Accepted(0)]);
    var s2 := State(g, Starting(r), [], 1, [Accepted(0)]);
    var s3 := s2.(pc := Activating(r, First), g := g.(rid := Some("a")));
    var s4 := s3.(pc := Activating(r, Second), g := s3.g.(task := Live));
    assert Next(START, Accept("a", StateChange)) == s1;
    assert AdvanceStep(s1) == s2 && AdvanceStep(s4) == SNAPSHOT_RUNS;
    steps := [Advance] + rest;
    Prepend(s4, Advance, rest, t, true);
    Prepend(s3, Advance, steps, t, true); steps := [Advance] + steps;
    Prepend(s2, Advance, steps, t, true); steps := [Advance] + steps;
    Prepend(s1, Advance, steps, t, true); steps := [Advance] + steps;
    Prepend(START, Accept("a", StateChange), steps, t, true); steps := [Accept("a", StateChange)] + steps;
  }

  lemma ReachSnapshotDone(rest: seq<Step>, t: State) returns (steps: seq<Step>)
    requires Leads(SNAPSHOT_DONE, rest, t, true)
    ensures Leads(SNAPSHOT_RUNS, steps, t, true)
  {
    hide Run, NoReuseTaken, WaitsForDone, Leads;
    var r := SNAPSHOT;
    var s6 := SNAPSHOT_RUNS.(pc := Handoff(r), g := SNAPSHOT_RUNS.g.(task := Complete));
    var s7 := s6.(pc := Retiring(r, First), g := s6.g.(finishing := Some("a")));
    var s8 := s7.(pc := Retiring(r, Second), g := s7.g.(task := NoTask));
    assert AdvanceStep(SNAPSHOT_RUNS) == s6 && AdvanceStep(s8) == SNAPSHOT_DONE;
    steps := [Advance] + rest;
    Prepend(s8, Advance, rest, t, true);
    Prepend(s7, Advance, steps, t, true); steps := [Advance] + steps;
    Prepend(s6, Advance, steps, t, true); steps := [Advance] + steps;
    Prepend(SNAPSHOT_RUNS, Advance, steps, t, true); steps := [Advance] + steps;
  }

  /** A polite host that interrupts a completed snapshot twice has it answered by the backstop, as an error. */
  lemma TwoInterruptsDisownASnapshot()
    ensures exists before, steps, t ::
              && Leads(START, before, SNAPSHOT_DONE, true) && Leads(SNAPSHOT_DONE, steps, t, true)
              && t.pc == Closing(SNAPSHOT, BackstopClause)
  {
    assert Leads(SNAPSHOT_DONE, [], SNAPSHOT_DONE, true);
    var running := ReachSnapshotDone([], SNAPSHOT_DONE);
    var before := ReachSnapshotRuns(running, SNAPSHOT_DONE);
    var r1 := Next(SNAPSHOT_DONE, Interrupt(None));
    var r2 := Next(r1, Sigint(false));
    var r3 := Next(r2, Interrupt(None));
    var t := Next(r3, Sigint(false));
    assert r1.g.target == Some("a") && r2.pc == Closing(SNAPSHOT, StateExcept);
    assert r3.g == r2.g && r3.pc == r2.pc && t.pc == Closing(SNAPSHOT, BackstopClause);
    var last := [Interrupt(None)] + ([Sigint(false)] + []);
    Prepend(r3, Sigint(false), [], t, true);
    Prepend(r2, Interrupt(None), [Sigint(false)] + [], t, true);
    Prepend(r1, Sigint(false), last, t, true);
    Prepend(SNAPSHOT_DONE, Interrupt(None), [Sigint(false)] + last, t, true);
  }
}
