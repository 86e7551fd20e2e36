/**
 * What holds in every run of the interrupt protocol, whatever ids the host gives out and when:
 * each request is done once, and a SIGINT hits only a request that a message addressed and
 * that is not finished.
 */
module InterruptEveryRun {
  import opened Wrappers
  import opened KernelBookkeeping
  import opened InterruptProtocol

  // ---------------------------------------------------------------- the slots

  /** The slots name nothing but the current request. */
  predicate OwnSlots(s: State) {
    var g := s.g;
    match s.pc
    case Idle => g.rid.None? && g.finishing.None?
    case Starting(_) => g.rid.None? && g.finishing.None?
    case Activating(req, stage) => g.rid == Some(req.rid) && g.finishing.None? && (!stage.First? ==> g.task == Live)
    case Running(req) => g.rid == Some(req.rid) && g.finishing.None? && g.task == Live
    case Handoff(req) => g.rid == Some(req.rid) && g.finishing.None?
    case Retiring(req, _) => g.rid == Some(req.rid) && g.finishing == Some(req.rid)
    case Returning(req) => g.rid.None? && g.finishing == Some(req.rid)
    case PostRun(req) => g.rid.None? && g.finishing == Some(req.rid)
    case Closing(req, _) => g.rid.None? && (g.finishing.None? || g.finishing == Some(req.rid))
    case Finishing(req, _, stage) =>
      g.rid.None? && (g.finishing.None? || (stage.First? && g.finishing == Some(req.rid)))
    case Replying(_, _) => g.rid.None? && g.finishing.None?
    case Dead(req) => g.rid.None? && (g.finishing.None? || g.finishing == Some(req.rid))
  }

  lemma StepKeepsOwnSlots(s: State, step: Step)
    requires OwnSlots(s) && Enabled(s, step)
    ensures OwnSlots(Next(s, step))
  {
    match step {
      case Sigint(swallowed) => SigintKeepsOwnSlots(s, swallowed);
      case Interrupt(msg) =>
      case Accept(rid, kind) =>
      case _ =>
    }
  }

  lemma SigintKeepsOwnSlots(s: State, swallowed: bool)
    requires OwnSlots(s) && !s.pc.Dead?
    ensures OwnSlots(SigintStep(s, swallowed))
  {
  }

  lemma {:induction false} RunKeepsOwnSlots(s: State, steps: seq<Step>)
    requires OwnSlots(s) && Run(s, steps).Some?
    ensures OwnSlots(Run(s, steps).value)
    decreases |steps|
  {
    if steps != [] {
      StepKeepsOwnSlots(s, steps[0]);
      RunKeepsOwnSlots(Next(s, steps[0]), steps[1..]);
    }
  }

  /** The current request holds a slot. */
  predicate HoldsSlot(g: Globals) {
    g.rid.Some? || g.finishing.Some?
  }

  // ---------------------------------------------------------------- the current request

  /** Before its last clause, and as long as it holds a slot, the current request is not finished. */
  predicate NotFinishedYet(s: State) {
    match s.pc
    case Idle => true
    case Closing(req, clause) => (clause.BackstopClause? && !HoldsSlot(s.g)) || Finished(req.serial) !in s.hist
    case Finishing(req, clause, _) => (clause.BackstopClause? && !HoldsSlot(s.g)) || Finished(req.serial) !in s.hist
    case Replying(req, _) => Finished(req.serial) in s.hist
    case Dead(req) => !HoldsSlot(s.g) || Finished(req.serial) !in s.hist
    case _ => Finished(s.pc.req.serial) !in s.hist
  }

  ghost predicate QueueNotFinished(s: State) {
    forall q :: q in s.queue ==> Finished(q.serial) !in s.hist
  }

  /** A target, or a recorded hand-off, is the current request, and a message addressed it. */
  predicate OwnTarget(s: State) {
    && (s.g.task == Live ==> s.pc.Running? || s.pc.Activating?)
    && (s.g.handoff ==> s.g.target.Some? && HoldsSlot(s.g))
    && (s.g.target.Some? ==>
          && !s.pc.Idle? && !s.pc.Starting? && !s.pc.Activating?
          && (HoldsSlot(s.g) || (s.pc.Finishing? && s.pc.stage.Second?))
          && s.g.target == Some(s.pc.req.rid) && Resolved(s.pc.req.serial) in s.hist)
  }

  // ---------------------------------------------------------------- the history

  /** Only that a hit request was addressed is not asked for. */
  predicate Timely(h: seq<Event>, e: Event) {
    if e.Hit? then Accepted(e.serial) in h && Finished(e.serial) !in h else Allowed(h, e)
  }

  ghost predicate AllTimely(h: seq<Event>) {
    h != [] ==> AllTimely(h[..|h| - 1]) && Timely(h[..|h| - 1], h[|h| - 1])
  }

  /** Serials are given out in turn, and every request that is not owed a done event has had one. */
  ghost predicate Tally(s: State) {
    && (forall e :: e in s.hist ==> e.serial < s.next)
    && (forall n: nat :: n < s.next ==> Accepted(n) in s.hist)
    && (forall n: nat :: multiset(s.hist)[Done(n)] == if n < s.next && n !in Owed(s) then 1 else 0)
  }

  ghost predicate Always(s: State) {
    OwnSlots(s) && NotFinishedYet(s) && QueueNotFinished(s) && OwnTarget(s) && Order(s) && Tally(s) && AllTimely(s.hist)
  }

  lemma StartAlways()
    ensures Always(START)
  {
  }

  /** What a step adds to the history. */
  function News(s: State, step: Step): seq<Event>
    requires Enabled(s, step)
  {
    match step
    case Accept(rid, _) => if rid in s.g.inflight then [] else [Accepted(s.next)]
    case Interrupt(msg) =>
      var who := Addressee(Open(s), msg);
      if who.Some? then [Resolved(who.value)] else []
    case Sigint(_) =>
      var how := HandleSigint(s.g).1;
      if !s.pc.Idle? && (how.HitActive? || how.RaisedInFinishing?) then [Hit(s.pc.req.serial)] else []
    case Advance =>
      (match s.pc
       case Activating(req, stage) => if !stage.First? && ConsumePending(s.g, req.rid).1 then [Hit(req.serial)] else []
       case Returning(req) => if req.kind.Cell? && s.g.handoff then [Hit(req.serial)] else []
       case Finishing(req, _, stage) =>
         if stage.Third? && Finished(req.serial) !in s.hist then [Finished(req.serial)] else []
       case Replying(req, _) => [Done(req.serial)]
       case _ => [])
    case _ => []
  }

  lemma HistoryGrows(s: State, step: Step)
    requires Enabled(s, step)
    ensures Next(s, step).hist == s.hist + News(s, step) && |News(s, step)| <= 1
  {
  }

  /** The activation of a request for which an interrupt is parked that no message sent to it. */
  predicate CancelsUnaddressed(s: State, step: Step)
    requires Enabled(s, step)
  {
    step.Advance? && s.pc.Activating? && News(s, step) != [] && Resolved(s.pc.req.serial) !in s.hist
  }

  lemma AddresseeIsOpen(open: seq<Request>, msg: Option<Rid>)
    ensures Addressee(open, msg).Some? ==> exists q :: q in open && q.serial == Addressee(open, msg).value
  {
    if open != [] && !(msg.None? || msg.value == open[0].rid) {
      AddresseeIsOpen(open[1..], msg);
    }
  }

  /** In every run, an event is as it should be, except for the cancellation of an unaddressed request. */
  lemma NewsIsAllowedExactly(s: State, step: Step, e: Event)
    requires Always(s) && Enabled(s, step) && e in News(s, step)
    ensures Timely(s.hist, e)
    ensures Allowed(s.hist, e) <==> !CancelsUnaddressed(s, step)
    ensures e.Hit? ==> !s.pc.Idle? && e.serial == s.pc.req.serial
  {
    if step.Interrupt? {
      AddresseeIsOpen(Open(s), step.msg);
    }
  }

  // ---------------------------------------------------------------- every step keeps it

  /** Most steps leave the queue and the current request where they are. */
  lemma PlaceStays(s: State, step: Step)
    requires Enabled(s, step) && !(step.Accept? && step.rid !in s.g.inflight) && !(step.Advance? && s.pc.Idle?)
    ensures
      var t := Next(s, step);
      && t.queue == s.queue && t.next == s.next
      && (t.pc.Idle? || (!s.pc.Idle? && t.pc.req == s.pc.req))
  {
  }

  lemma StepKeepsOrder(s: State, step: Step)
    requires Order(s) && Enabled(s, step)
    ensures Order(Next(s, step))
  {
    if step.Accept? && step.rid !in s.g.inflight {
      AcceptOrder(s, step.rid, step.kind);
    } else if step.Advance? && s.pc.Idle? {
      assert forall r :: r in s.queue[1..] ==> r in s.queue;
      assert s.queue[0] in s.queue;
    } else {
      PlaceStays(s, step);
    }
  }

  /** Who is owed a done event changes only when a request is accepted and when its event is sent. */
  lemma StepKeepsOwed(s: State, step: Step)
    requires Order(s) && Enabled(s, step)
    ensures Owed(Next(s, step)) ==
              if step.Accept? && step.rid !in s.g.inflight then Owed(s) + {s.next}
              else if step.Advance? && s.pc.Replying? then Owed(s) - {s.pc.req.serial}
              else Owed(s)
  {
    if step.Accept? && step.rid !in s.g.inflight {
      var q := Request(step.rid, s.next, step.kind);
      assert forall r :: r in s.queue + [q] <==> r in s.queue || r == q;
    } else if step.Advance? && s.pc.Idle? {
      assert forall r :: r in s.queue <==> r == s.queue[0] || r in s.queue[1..];
    }
  }

  lemma StepKeepsTally(s: State, step: Step)
    requires Always(s) && Enabled(s, step)
    ensures Tally(Next(s, step))
  {
    hide OwnSlots, NotFinishedYet, QueueNotFinished, OwnTarget, AllTimely, Owed, Next, News;
    HistoryGrows(s, step);
    StepKeepsOwed(s, step);
    var t, news := Next(s, step), News(s, step);
    NewsIsInRange(s, step);
    CurrentIsOwed(s);
    forall n: nat
      ensures multiset(t.hist)[Done(n)] == if n < t.next && n !in Owed(t) then 1 else 0
    {
      CountAppend(s.hist, news, Done(n));
    }
  }

  lemma CurrentIsOwed(s: State)
    requires Order(s)
    ensures forall n :: n in Owed(s) ==> n < s.next
    ensures !s.pc.Idle? ==> s.pc.req.serial in Owed(s)
  {
  }

  /** The serials of what a step adds; a done event is that of the current request. */
  lemma NewsIsInRange(s: State, step: Step)
    requires Always(s) && Enabled(s, step)
    ensures Next(s, step).next == s.next + if step.Accept? && step.rid !in s.g.inflight then 1 else 0
    ensures step.Accept? && step.rid !in s.g.inflight ==> News(s, step) == [Accepted(s.next)]
    ensures forall e :: e in News(s, step) ==> e.serial < Next(s, step).next
    ensures forall e :: e in News(s, step) && e.Done? ==> step.Advance? && s.pc.Replying?
    ensures step.Advance? && s.pc.Replying? ==> News(s, step) == [Done(s.pc.req.serial)]
  {
    if step.Interrupt? {
      AddresseeIsOpen(Open(s), step.msg);
    }
  }

  lemma CountAppend(h: seq<Event>, news: seq<Event>, e: Event)
    requires |news| <= 1
    ensures multiset(h + news)[e] == multiset(h)[e] + if e in news then 1 else 0
  {
    assert news == [] || news == [news[0]];
  }

  lemma StepKeepsTimely(s: State, step: Step)
    requires Always(s) && Enabled(s, step)
    ensures AllTimely(Next(s, step).hist)
  {
    HistoryGrows(s, step);
    var news := News(s, step);
    if news == [] {
      assert s.hist + news == s.hist;
    } else {
      NewsIsAllowedExactly(s, step, news[0]);
      assert (s.hist + news)[..|s.hist|] == s.hist && news == [news[0]];
    }
  }

  lemma StepKeepsUnfinished(s: State, step: Step)
    requires OwnSlots(s) && NotFinishedYet(s) && QueueNotFinished(s) && Order(s) && Enabled(s, step)
    ensures NotFinishedYet(Next(s, step))
  {
    HistoryGrows(s, step);
    match step {
      case Advance => AdvanceKeepsUnfinished(s);
      case Sigint(swallowed) => SigintKeepsUnfinished(s, swallowed);
      case _ =>
    }
  }

  lemma AdvanceKeepsUnfinished(s: State)
    requires OwnSlots(s) && NotFinishedYet(s) && QueueNotFinished(s) && Enabled(s, Advance)
    ensures NotFinishedYet(AdvanceStep(s))
  {
    HistoryGrows(s, Advance);
    if s.pc.Idle? {
      assert s.queue[0] in s.queue;
    }
  }

  lemma SigintKeepsUnfinished(s: State, swallowed: bool)
    requires OwnSlots(s) && NotFinishedYet(s) && !s.pc.Dead?
    ensures NotFinishedYet(SigintStep(s, swallowed))
  {
    HistoryGrows(s, Sigint(swallowed));
  }

  lemma StepKeepsQueueUnfinished(s: State, step: Step)
    requires QueueNotFinished(s) && Order(s) && Tally(s) && Enabled(s, step)
    ensures QueueNotFinished(Next(s, step))
  {
    HistoryGrows(s, step);
    var t := Next(s, step);
    forall q | q in t.queue
      ensures Finished(q.serial) !in t.hist
    {
      assert q in s.queue || q.serial == s.next;
      assert Finished(q.serial) !in s.hist;
    }
  }

  lemma StepKeepsOwnTarget(s: State, step: Step)
    requires OwnSlots(s) && NotFinishedYet(s) && OwnTarget(s) && Enabled(s, step)
    ensures OwnTarget(Next(s, step))
  {
    match step {
      case Advance => AdvanceKeepsOwnTarget(s);
      case Sigint(swallowed) => SigintKeepsOwnTarget(s, swallowed);
      case Interrupt(msg) => InterruptKeepsOwnTarget(s, msg);
      case _ => HistoryGrows(s, step);
    }
  }

  lemma AdvanceKeepsOwnTarget(s: State)
    requires OwnSlots(s) && OwnTarget(s) && Enabled(s, Advance)
    ensures OwnTarget(AdvanceStep(s))
  {
    HistoryGrows(s, Advance);
  }

  lemma SigintKeepsOwnTarget(s: State, swallowed: bool)
    requires OwnSlots(s) && OwnTarget(s) && !s.pc.Dead?
    ensures OwnTarget(SigintStep(s, swallowed))
  {
    HistoryGrows(s, Sigint(swallowed));
  }

  /** Whoever a message makes the target is the request it is resolved to. */
  lemma InterruptKeepsOwnTarget(s: State, msg: Option<Rid>)
    requires OwnSlots(s) && NotFinishedYet(s) && OwnTarget(s) && !Locked(s.pc)
    ensures OwnTarget(InterruptStep(s, msg))
  {
    HistoryGrows(s, Interrupt(msg));
    if HoldsSlot(s.g) {
      assert Open(s)[0] == s.pc.req;
    }
  }

  lemma StepKeepsAlways(s: State, step: Step)
    requires Always(s) && Enabled(s, step)
    ensures Always(Next(s, step))
  {
    StepKeepsOwnSlots(s, step);
    StepKeepsUnfinished(s, step);
    StepKeepsQueueUnfinished(s, step);
    StepKeepsOwnTarget(s, step);
    StepKeepsOrder(s, step);
    StepKeepsTally(s, step);
    StepKeepsTimely(s, step);
  }

  // ---------------------------------------------------------------- whole runs

  lemma {:induction false} RunKeepsAlways(s: State, steps: seq<Step>)
    requires Always(s) && Run(s, steps).Some?
    ensures Always(Run(s, steps).value)
    decreases |steps|
  {
    if steps != [] {
      StepKeepsAlways(s, steps[0]);
      RunKeepsAlways(Next(s, steps[0]), steps[1..]);
    }
  }

  lemma RunsKeepAlways(steps: seq<Step>)
    requires Run(START, steps).Some?
    ensures Always(Run(START, steps).value)
  {
    StartAlways();
    RunKeepsAlways(START, steps);
  }

  /**
   * In every run, whatever ids the host reuses and however late the signal comes: a SIGINT, and
   * every step but an activation, hits nothing but the current request, which a message addressed and which
   * is not finished.
   */
  lemma SignalsHitOnlyTheAddressed(steps: seq<Step>, step: Step)
    requires Run(START, steps).Some? && Enabled(Run(START, steps).value, step)
    ensures
      var s := Run(START, steps).value;
      var t := Next(s, step);
      forall n :: t.hist == s.hist + [Hit(n)] && !(step.Advance? && s.pc.Activating?) ==>
        && !s.pc.Idle? && n == s.pc.req.serial
        && Resolved(n) in s.hist && Finished(n) !in s.hist && Done(n) !in s.hist
  {
    RunsKeepAlways(steps);
    var s := Run(START, steps).value;
    HistoryGrows(s, step);
    forall n | Next(s, step).hist == s.hist + [Hit(n)] && !(step.Advance? && s.pc.Activating?)
      ensures !s.pc.Idle? && n == s.pc.req.serial
      ensures Resolved(n) in s.hist && Finished(n) !in s.hist && Done(n) !in s.hist
    {
      assert News(s, step) == [Hit(n)] by {
        assert (s.hist + News(s, step))[|s.hist|..] == News(s, step) && (s.hist + [Hit(n)])[|s.hist|..] == [Hit(n)];
      }
      NewsIsAllowedExactly(s, step, Hit(n));
      assert multiset(s.hist)[Done(n)] == 0;
    }
  }

  /**
   * In every run each event is the one the protocol allows next, with one exception: an activation that
   * consumes a parked interrupt cancels its request also when no message addressed it.
   */
  lemma EventsAreAllowedExactly(steps: seq<Step>, step: Step)
    requires Run(START, steps).Some? && Enabled(Run(START, steps).value, step)
    ensures
      var s := Run(START, steps).value;
      && Next(s, step).hist == s.hist + News(s, step) && |News(s, step)| <= 1
      && forall e :: e in News(s, step) ==> Timely(s.hist, e) && (Allowed(s.hist, e) <==> !CancelsUnaddressed(s, step))
  {
    RunsKeepAlways(steps);
    var s := Run(START, steps).value;
    HistoryGrows(s, step);
    forall e | e in News(s, step)
      ensures Timely(s.hist, e) && (Allowed(s.hist, e) <==> !CancelsUnaddressed(s, step))
    {
      NewsIsAllowedExactly(s, step, e);
    }
  }

  /** The exception needs a backstop that took a reused id before. */
  lemma CancelsUnaddressedOnlyAfterReuse(steps: seq<Step>, step: Step)
    requires Run(START, steps).Some? && Enabled(Run(START, steps).value, step)
    requires CancelsUnaddressed(Run(START, steps).value, step)
    ensures !NoReuseTaken(START, steps)
  {
    if NoReuseTaken(START, steps) {
      StartInv();
      RunKeepsInv(START, steps);
      ActivationHitsTheAddressed(Run(START, steps).value);
    }
  }

  lemma {:induction false} TimelyAt(h: seq<Event>, k: nat)
    requires AllTimely(h) && k < |h|
    ensures Timely(h[..k], h[k])
    decreases |h|
  {
    var front := h[..|h| - 1];
    if k < |front| {
      TimelyAt(front, k);
      assert front[..k] == h[..k];
    }
  }

  /** In every run nothing happens to a request that is not accepted, is finished, or is done. */
  lemma NothingComesLate(steps: seq<Step>, k: nat)
    requires Run(START, steps).Some? && k < |Run(START, steps).value.hist|
    ensures
      var h := Run(START, steps).value.hist;
      match h[k]
      case Accepted(n) => Accepted(n) !in h[..k]
      case Resolved(n) => Accepted(n) in h[..k] && Finished(n) !in h[..k]
      case Hit(n) => Accepted(n) in h[..k] && Finished(n) !in h[..k]
      case Finished(n) => Accepted(n) in h[..k] && Finished(n) !in h[..k]
      case Done(n) => Finished(n) in h[..k] && Done(n) !in h[..k]
  {
    RunsKeepAlways(steps);
    TimelyAt(Run(START, steps).value.hist, k);
  }

  /** In every run a request that the main thread has left behind got exactly one done event, any other none. */
  lemma EveryRequestIsDone(steps: seq<Step>, n: nat)
    requires Run(START, steps).Some?
    ensures
      var s := Run(START, steps).value;
      multiset(s.hist)[Done(n)] == if n < s.next && n !in Owed(s) then 1 else 0
  {
    RunsKeepAlways(steps);
  }

  /** The serve loop dies on exactly two steps, both inside the backstop. */
  lemma ServeLoopDiesExactly(s: State, step: Step)
    requires OwnSlots(s) && Enabled(s, step) && !s.pc.Dead?
    ensures Next(s, step).pc.Dead? <==>
              || (step.Sigint? && (s.pc.Closing? || s.pc.Finishing?) && s.pc.clause.BackstopClause?
                  && s.g.target.Some? && s.g.target == s.g.finishing)
              || (step.ReplyFails? && s.pc.clause.BackstopClause?)
  {
  }

  /** A dead serve loop owes its last request, and all that are queued, a done event for good. */
  lemma {:induction false} DeadLoopOwesDone(steps: seq<Step>, more: seq<Step>)
    requires Run(START, steps).Some? && Run(START, steps).value.pc.Dead?
    requires Run(Run(START, steps).value, more).Some?
    ensures
      var s := Run(START, steps).value;
      var t := Run(s, more).value;
      && t.pc == s.pc && s.pc.req.serial in Owed(s) && Owed(s) <= Owed(t)
      && (forall n :: n in Owed(t) ==> Done(n) !in t.hist)
      && (forall step :: Enabled(t, step) ==> step.Accept? || step.Interrupt?)
  {
    RunsKeepAlways(steps);
    var s := Run(START, steps).value;
    RunKeepsAlways(s, more);
    DeadStaysDead(s, more);
    forall n | n in Owed(Run(s, more).value)
      ensures Done(n) !in Run(s, more).value.hist
    {
      assert multiset(Run(s, more).value.hist)[Done(n)] == 0;
    }
  }

  lemma {:induction false} DeadStaysDead(s: State, more: seq<Step>)
    requires Order(s) && s.pc.Dead? && Run(s, more).Some?
    ensures Run(s, more).value.pc == s.pc && Owed(s) <= Owed(Run(s, more).value)
    decreases |more|
  {
    if more != [] {
      StepKeepsOrder(s, more[0]);
      StepKeepsOwed(s, more[0]);
      DeadStaysDead(Next(s, more[0]), more[1..]);
    }
  }

  // ---------------------------------------------------------------- the globals

  /** Outside the critical sections the target is one of the two slots, and a recorded hand-off has a target. */
  predicate Targets(g: Globals) {
    && (g.target.Some? ==> g.target == g.rid || g.target == g.finishing)
    && (g.handoff ==> g.target.Some?)
  }

  predicate ParkedInFlight(g: Globals) {
    g.parkedIds <= g.inflight && (g.parkedAny ==> g.inflight != {})
  }

  /** A step of the main thread takes parked interrupts away, or drops the request. */
  lemma AdvanceUnparks(s: State)
    requires Enabled(s, Advance)
    ensures
      var g, h := s.g, AdvanceStep(s).g;
      || (h.inflight == g.inflight && h.parkedIds <= g.parkedIds && (h.parkedAny ==> g.parkedAny))
      || (s.pc.Finishing? && h == DropRequest(g, s.pc.req.rid))
  {
  }

  lemma StepKeepsParked(s: State, step: Step)
    requires ParkedInFlight(s.g) && Enabled(s, step)
    ensures ParkedInFlight(Next(s, step).g)
  {
    hide AdvanceStep;
    if step.Advance? {
      AdvanceUnparks(s);
    }
  }

  lemma {:induction false} RunKeepsParked(s: State, steps: seq<Step>)
    requires ParkedInFlight(s.g) && Run(s, steps).Some?
    ensures ParkedInFlight(Run(s, steps).value.g)
    decreases |steps|
  {
    if steps != [] {
      StepKeepsParked(s, steps[0]);
      RunKeepsParked(Next(s, steps[0]), steps[1..]);
    }
  }

  /** The relations between the globals that reused ids cannot break. */
  lemma GlobalsStayRelated(steps: seq<Step>)
    requires Run(START, steps).Some?
    ensures
      var s := Run(START, steps).value;
      ParkedInFlight(s.g) && (!Locked(s.pc) ==> Targets(s.g))
  {
    RunsKeepAlways(steps);
    RunKeepsParked(START, steps);
  }

  // ---------------------------------------------------------------- the signal

  lemma {:induction false} AddresseeOrLater(open: seq<Request>, msg: Option<Rid>)
    requires open != [] && forall q :: q in open[1..] ==> open[0].serial < q.serial
    ensures Addressee(open, msg) == Some(open[0].serial) <==> msg.None? || msg.value == open[0].rid
  {
    AddresseeIsOpen(open[1..], msg);
  }

  /**
   * Outside the critical sections: a message sends a SIGINT exactly if the request it addresses
   * is the current one and holds a slot. Then that request becomes the target, and the signal is not dropped;
   * otherwise the target and the slots stay as they are.
   */
  lemma SignalIsSentExactly(s: State, msg: Option<Rid>)
    requires Always(s) && !Locked(s.pc)
    ensures
      var (g, signal) := RequestInterrupt(s.g, msg);
      && (signal <==> HoldsSlot(s.g) && Addressee(Open(s), msg) == Some(s.pc.req.serial))
      && (signal ==> g == s.g.(target := Some(s.pc.req.rid)) && !HandleSigint(g).1.Dropped?)
      && (!signal ==> g == s.g.(parkedIds := g.parkedIds, parkedAny := g.parkedAny))
  {
    if HoldsSlot(s.g) {
      assert Open(s) == [s.pc.req] + s.queue && Open(s)[1..] == s.queue;
      AddresseeOrLater(Open(s), msg);
    }
  }

  /** The bookkeeping serves a message and then the signal it asks for, in any state that some run reaches. */
  method RequestAndSignal(b: Bookkeeping, ghost steps: seq<Step>, msg: Option<Rid>) returns (signal: bool, d: Delivery)
    requires Run(START, steps).Some? && !Locked(Run(START, steps).value.pc) && b.View() == Run(START, steps).value.g
    modifies b
    ensures
      var s := Run(START, steps).value;
      && (signal <==> HoldsSlot(s.g) && !s.pc.Idle? && Addressee(Open(s), msg) == Some(s.pc.req.serial))
      && (signal ==> b.target == Some(s.pc.req.rid) && b.parkedIds == s.g.parkedIds && b.parkedAny == s.g.parkedAny)
      && (signal ==> !d.Dropped?)
      && (signal ==> (d.HitActive? <==> s.g.task == Live && s.g.rid.Some?))
      && (signal ==> (d.Recorded? <==> s.g.task != Live && s.g.rid.Some?))
      && (!signal ==> b.target == s.g.target && d.Dropped?)
  {
    ghost var s := Run(START, steps).value;
    RunsKeepAlways(steps);
    SignalIsSentExactly(s, msg);
    signal := b.Request(msg);
    d := Dropped;
    if signal {
      d := b.Handler();
    }
  }

  /** The current request is the one given, it was activated, and as long as it holds a slot it is the target. */
  predicate StillTarget(s: State, q: Request) {
    && !s.pc.Idle? && s.pc.req == q && !s.pc.Starting? && !s.pc.Activating?
    && (HoldsSlot(s.g) ==> s.g.target == Some(q.rid))
  }

  predicate BehindIt(s: State, q: Request) {
    s.pc.Idle? || q.serial < s.pc.req.serial
  }

  lemma StillTargetStays(s: State, q: Request, step: Step)
    requires Always(s) && Enabled(s, step) && StillTarget(s, q)
    ensures StillTarget(Next(s, step), q) || BehindIt(Next(s, step), q)
  {
    if step.Interrupt? {
      SignalIsSentExactly(s, step.msg);
    }
  }

  lemma BehindItStays(s: State, q: Request, step: Step)
    requires Order(s) && q.serial < s.next && Enabled(s, step)
    requires BehindIt(s, q) && forall r :: r in s.queue ==> q.serial < r.serial
    ensures BehindIt(Next(s, step), q) && forall r :: r in Next(s, step).queue ==> q.serial < r.serial
  {
    var t := Next(s, step);
    forall r | r in t.queue
      ensures q.serial < r.serial
    {
      assert r in s.queue || r.serial == s.next;
    }
    if step.Advance? && s.pc.Idle? {
      assert s.queue[0] in s.queue;
    }
  }

  lemma {:induction false} BehindItForGood(s: State, q: Request, steps: seq<Step>)
    requires Order(s) && q.serial < s.next && Run(s, steps).Some?
    requires BehindIt(s, q) && forall r :: r in s.queue ==> q.serial < r.serial
    ensures BehindIt(Run(s, steps).value, q)
    decreases |steps|
  {
    if steps != [] {
      BehindItStays(s, q, steps[0]);
      StepKeepsOrder(s, steps[0]);
      BehindItForGood(Next(s, steps[0]), q, steps[1..]);
    }
  }

  /**
   * A signal that was asked for is never too early or too late: whenever it arrives while the
   * request still holds a slot, after any steps of any thread, it is not dropped.
   */
  lemma {:induction false} SignalStaysGood(s: State, q: Request, steps: seq<Step>)
    requires Always(s) && StillTarget(s, q) && Run(s, steps).Some?
    ensures
      var t := Run(s, steps).value;
      !t.pc.Idle? && t.pc.req.serial == q.serial && HoldsSlot(t.g) ==>
        t.pc.req == q && t.g.target == Some(q.rid) && !HandleSigint(t.g).1.Dropped?
    decreases |steps|
  {
    if steps != [] {
      var t := Next(s, steps[0]);
      StillTargetStays(s, q, steps[0]);
      StepKeepsAlways(s, steps[0]);
      if StillTarget(t, q) {
        SignalStaysGood(t, q, steps[1..]);
      } else {
        LaterInQueue(s, q, steps[0]);
        BehindItForGood(t, q, steps[1..]);
      }
    }
  }

  lemma LaterInQueue(s: State, q: Request, step: Step)
    requires Order(s) && Enabled(s, step) && !s.pc.Idle? && s.pc.req == q
    ensures q.serial < Next(s, step).next && forall r :: r in Next(s, step).queue ==> q.serial < r.serial
  {
    var t := Next(s, step);
    forall r | r in t.queue
      ensures q.serial < r.serial
    {
      assert r in s.queue || r.serial == s.next;
    }
  }

  // ---------------------------------------------------------------- the hand-off

  /** Between the task's end and the post-run work: an interrupt is recorded, or has hit the cell. */
  predicate Recording(s: State, q: Request) {
    && (s.pc == Handoff(q) || (s.pc.Retiring? && s.pc.req == q) || s.pc == Returning(q) || s.pc == PostRun(q))
    && (Hit(q.serial) in s.hist || (s.g.handoff && !s.pc.PostRun?))
  }

  lemma RecordingStays(s: State, q: Request, step: Step)
    requires OwnSlots(s) && OwnTarget(s) && q.kind.Cell? && Recording(s, q) && Enabled(s, step)
    ensures
      var t := Next(s, step);
      Recording(t, q) || (Hit(q.serial) in t.hist && (t.pc.Closing? || t.pc.PostRun?) && t.pc.req == q)
  {
    HistoryGrows(s, step);
  }

  lemma HitsStay(s: State, steps: seq<Step>, n: nat)
    requires Hit(n) in s.hist && Run(s, steps).Some?
    ensures Hit(n) in Run(s, steps).value.hist
    decreases |steps|
  {
    if steps != [] {
      HistoryGrows(s, steps[0]);
      HitsStay(Next(s, steps[0]), steps[1..], n);
    }
  }

  /** No recorded interrupt is lost: it has hit its cell by the time the cell is past the hand-off. */
  lemma {:induction false} RecordedIsDelivered(s: State, q: Request, steps: seq<Step>)
    requires Always(s) && q.kind.Cell? && Recording(s, q) && Run(s, steps).Some?
    ensures
      var t := Run(s, steps).value;
      Hit(q.serial) in t.hist || (Recording(t, q) && t.g.handoff)
    decreases |steps|
  {
    if steps != [] {
      var t := Next(s, steps[0]);
      RecordingStays(s, q, steps[0]);
      StepKeepsAlways(s, steps[0]);
      if Recording(t, q) {
        RecordedIsDelivered(t, q, steps[1..]);
      } else {
        HitsStay(t, steps[1..], q.serial);
      }
    }
  }

  // ---------------------------------------------------------------- the interrupted flag

  ghost predicate NoHitYet(s: State) {
    && (forall q :: q in s.queue ==> Hit(q.serial) !in s.hist)
    && (s.pc.Starting? || s.pc.Activating? ==> Hit(s.pc.req.serial) !in s.hist)
  }

  /** While the active request holds its slot, the flag tells whether it has been hit. */
  predicate FlagTells(s: State) {
    match s.pc
    case Activating(_, _) => !s.g.interrupted
    case Running(req) => s.g.interrupted <==> Hit(req.serial) in s.hist
    case Handoff(req) => s.g.interrupted <==> Hit(req.serial) in s.hist
    case Retiring(req, _) => s.g.interrupted <==> Hit(req.serial) in s.hist
    case _ => true
  }

  lemma QueueOrigin(s: State, step: Step)
    requires Order(s) && Enabled(s, step)
    ensures forall q :: q in Next(s, step).queue ==> q in s.queue || q.serial == s.next
    ensures !s.pc.Idle? ==> forall q :: q in Next(s, step).queue ==> s.pc.req.serial < q.serial
  {
  }

  lemma NewHitsAreCurrent(s: State, step: Step, n: nat)
    requires Always(s) && Enabled(s, step) && Hit(n) in News(s, step)
    ensures !s.pc.Idle? && n == s.pc.req.serial
  {
    NewsIsAllowedExactly(s, step, Hit(n));
  }

  lemma QueueNotHit(s: State, step: Step)
    requires Always(s) && NoHitYet(s) && Enabled(s, step)
    ensures forall q :: q in Next(s, step).queue ==> Hit(q.serial) !in Next(s, step).hist
  {
    hide OwnSlots, NotFinishedYet, QueueNotFinished, OwnTarget, AllTimely, Next, News;
    HistoryGrows(s, step);
    QueueOrigin(s, step);
    forall q | q in Next(s, step).queue
      ensures Hit(q.serial) !in Next(s, step).hist
    {
      assert Hit(q.serial) !in s.hist;
      if Hit(q.serial) in News(s, step) {
        NewHitsAreCurrent(s, step, q.serial);
      }
    }
  }

  /** A request that waits for its activation came from the queue or was waiting before, and nothing hits it. */
  lemma StillWaits(s: State, step: Step)
    requires OwnSlots(s) && OwnTarget(s) && Enabled(s, step)
    requires Next(s, step).pc.Starting? || Next(s, step).pc.Activating?
    ensures
      var t := Next(s, step);
      if s.pc.Idle? then step.Advance? && t.pc.req == s.queue[0] && News(s, step) == []
      else (s.pc.Starting? || s.pc.Activating?) && t.pc.req == s.pc.req && forall e :: e in News(s, step) ==> !e.Hit?
  {
  }

  lemma CurrentNotHit(s: State, step: Step)
    requires OwnSlots(s) && OwnTarget(s) && NoHitYet(s) && Enabled(s, step)
    ensures
      var t := Next(s, step);
      t.pc.Starting? || t.pc.Activating? ==> Hit(t.pc.req.serial) !in t.hist
  {
    hide OwnSlots, OwnTarget, Next, News;
    HistoryGrows(s, step);
    if Next(s, step).pc.Starting? || Next(s, step).pc.Activating? {
      StillWaits(s, step);
      if s.pc.Idle? {
        assert s.queue[0] in s.queue;
      }
    }
  }

  lemma StepKeepsNoHitYet(s: State, step: Step)
    requires Always(s) && NoHitYet(s) && Enabled(s, step)
    ensures NoHitYet(Next(s, step))
  {
    hide Next;
    QueueNotHit(s, step);
    CurrentNotHit(s, step);
  }

  lemma AdvanceKeepsFlag(s: State)
    requires OwnSlots(s) && NoHitYet(s) && FlagTells(s) && Enabled(s, Advance)
    ensures FlagTells(AdvanceStep(s))
  {
    HistoryGrows(s, Advance);
  }

  lemma SigintKeepsFlag(s: State, swallowed: bool)
    requires OwnSlots(s) && OwnTarget(s) && NoHitYet(s) && FlagTells(s) && !s.pc.Dead?
    ensures FlagTells(SigintStep(s, swallowed))
  {
    HistoryGrows(s, Sigint(swallowed));
  }

  lemma StepKeepsFlag(s: State, step: Step)
    requires OwnSlots(s) && OwnTarget(s) && NoHitYet(s) && FlagTells(s) && Enabled(s, step)
    ensures FlagTells(Next(s, step))
  {
    match step {
      case Advance => AdvanceKeepsFlag(s);
      case Sigint(swallowed) => SigintKeepsFlag(s, swallowed);
      case _ => HistoryGrows(s, step);
    }
  }

  lemma {:induction false} RunKeepsFlag(s: State, steps: seq<Step>)
    requires Always(s) && NoHitYet(s) && FlagTells(s) && Run(s, steps).Some?
    ensures FlagTells(Run(s, steps).value)
    decreases |steps|
  {
    if steps != [] {
      StepKeepsNoHitYet(s, steps[0]);
      StepKeepsFlag(s, steps[0]);
      StepKeepsAlways(s, steps[0]);
      RunKeepsFlag(Next(s, steps[0]), steps[1..]);
    }
  }

  /** In every run the flag of the active request tells whether it has been hit: what its outcome is judged by. */
  lemma FlagTellsOfHits(steps: seq<Step>)
    requires Run(START, steps).Some?
    ensures FlagTells(Run(START, steps).value)
  {
    StartAlways();
    RunKeepsFlag(START, steps);
  }
}
