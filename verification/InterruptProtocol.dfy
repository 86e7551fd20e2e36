/**
 * Interleavings of the reader thread, the main thread and the SIGINT handler.
 *
 * Every accepted request gets a serial number, so that an id used twice names two
 * requests, and a history records what happened to each of them. A SIGINT may
 * arrive before any main-thread step, whether or not a message sent one: that
 * covers every delay between the locked part of an interrupt and its delivery.
 */
module InterruptProtocol {
  import opened Wrappers
  import opened KernelBookkeeping

  datatype Kind = Cell | StateChange

  datatype Request = Request(rid: Rid, serial: nat, kind: Kind)

  /** The clause that is about to finish a request. */
  datatype Clause =
    | StateTry                    // snapshot/restore, inside the try
    | StateExcept                 // snapshot/restore, after a KeyboardInterrupt
    | CellFinally(raised: bool)   // cell, with or without an exception under way
    | BackstopClause              // the except clause around every request

  datatype Stage = First | Second | Third

  /** Where the main thread is. Stages are points inside a critical section. */
  datatype Pc =
    | Idle
    | Starting(req: Request)
    | Activating(req: Request, stage: Stage)
    | Running(req: Request)
    | Handoff(req: Request)
    | Retiring(req: Request, stage: Stage)
    | Returning(req: Request)
    | PostRun(req: Request)
    | Closing(req: Request, clause: Clause)
    | Finishing(req: Request, clause: Clause, stage: Stage)
    | Replying(req: Request, clause: Clause)
    | Dead(req: Request)

  datatype Event =
    | Accepted(serial: nat)
    | Resolved(serial: nat)    // an interrupt message addressed this request
    | Hit(serial: nat)         // cancelled, or KeyboardInterrupt raised into it
    | Finished(serial: nat)    // no longer in flight
    | Done(serial: nat)        // its done event was sent

  datatype State = State(g: Globals, pc: Pc, queue: seq<Request>, next: nat, hist: seq<Event>)

  datatype Step =
    | Accept(rid: Rid, kind: Kind)
    | Interrupt(msg: Option<Rid>)
    | Sigint(swallowed: bool)
    | Advance
    | StartFails
    | PostRunFails
    | ReplyFails

  const START: State := State(QUIET, Idle, [], 0, [])

  // ---------------------------------------------------------------- meaning of a message

  /** The requests that are not finished: the code's view of what an interrupt may address. */
  function Open(s: State): seq<Request> {
    if s.pc.Idle? || Finished(s.pc.req.serial) in s.hist then s.queue else [s.pc.req] + s.queue
  }

  /** The documented rule for a list of open requests: the first of them; with an id, that request only. */
  function Addressee(open: seq<Request>, msg: Option<Rid>): Option<nat> {
    if open == [] then None
    else if msg.None? || msg.value == open[0].rid then Some(open[0].serial)
    else Addressee(open[1..], msg)
  }

  // ---------------------------------------------------------------- steps

  predicate Locked(pc: Pc) {
    pc.Activating? || pc.Retiring? || pc.Finishing?
  }

  predicate Enabled(s: State, step: Step) {
    match step
    case Accept(_, _) => !Locked(s.pc)
    case Interrupt(_) => !Locked(s.pc)
    case Sigint(_) => !s.pc.Dead?
    case Advance => if s.pc.Idle? then s.queue != [] else !s.pc.Dead?
    case StartFails => s.pc.Starting?
    case PostRunFails => s.pc.PostRun?
    case ReplyFails => s.pc.Replying?
  }

  function Log(s: State, e: Event): State {
    s.(hist := s.hist + [e])
  }

  function Next(s: State, step: Step): State
    requires Enabled(s, step)
  {
    match step
    case Accept(rid, kind) => AcceptStep(s, rid, kind)
    case Interrupt(msg) => InterruptStep(s, msg)
    case Sigint(swallowed) => SigintStep(s, swallowed)
    case Advance => AdvanceStep(s)
    case StartFails => s.(pc := Closing(s.pc.req, BackstopClause))
    case PostRunFails => s.(pc := Closing(s.pc.req, CellFinally(true)))
    case ReplyFails =>
      s.(pc := if s.pc.clause.BackstopClause? then Dead(s.pc.req) else Closing(s.pc.req, BackstopClause))
  }

  function AcceptStep(s: State, rid: Rid, kind: Kind): State {
    if rid in s.g.inflight then s
    else
      Log(s.(g := s.g.(inflight := s.g.inflight + {rid}),
             queue := s.queue + [Request(rid, s.next, kind)], next := s.next + 1),
          Accepted(s.next))
  }

  function InterruptStep(s: State, msg: Option<Rid>): State {
    var t := s.(g := RequestInterrupt(s.g, msg).0);
    var who := Addressee(Open(s), msg);
    if who.Some? then Log(t, Resolved(who.value)) else t
  }

  function SigintStep(s: State, swallowed: bool): State
    requires !s.pc.Dead?
  {
    var (g, delivery) := HandleSigint(s.g);
    var t := s.(g := g);
    if s.pc.Idle? || delivery.Dropped? || delivery.Recorded? then t
    else if delivery.HitActive? then Log(t, Hit(s.pc.req.serial))
    else Log(t.(pc := Unwind(s.pc, swallowed)), Hit(s.pc.req.serial))
  }

  /** Where a KeyboardInterrupt raised into the finishing phase takes the main thread. */
  function Unwind(pc: Pc, swallowed: bool): Pc
    requires !pc.Idle?
  {
    match pc
    case Returning(req) => Closing(req, if req.kind.Cell? then BackstopClause else StateExcept)
    case PostRun(req) => if swallowed then pc else Closing(req, CellFinally(true))
    case Closing(req, clause) => Escape(req, clause)
    case Finishing(req, clause, _) => Escape(req, clause)
    case _ => pc
  }

  function Escape(req: Request, clause: Clause): Pc {
    match clause
    case StateTry => Closing(req, StateExcept)
    case StateExcept => Closing(req, BackstopClause)
    case CellFinally(_) => Closing(req, BackstopClause)
    case BackstopClause => Dead(req)
  }

  function AdvanceStep(s: State): State
    requires Enabled(s, Advance)
  {
    match s.pc
    case Idle => s.(pc := Starting(s.queue[0]), queue := s.queue[1..])
    case Starting(req) => s.(pc := Activating(req, First), g := s.g.(interrupted := false, rid := Some(req.rid)))
    case Activating(req, First) => s.(pc := Activating(req, Second), g := s.g.(task := Live))
    case Activating(req, _) =>
      var (g, pending) := ConsumePending(s.g, req.rid);
      if pending then Log(s.(pc := Running(req), g := g.(interrupted := true)), Hit(req.serial))
      else s.(pc := Running(req), g := g)
    case Running(req) => s.(pc := Handoff(req), g := s.g.(task := Complete))
    case Handoff(req) => s.(pc := Retiring(req, First), g := s.g.(finishing := Some(req.rid)))
    case Retiring(req, First) => s.(pc := Retiring(req, Second), g := s.g.(task := NoTask))
    case Retiring(req, _) => s.(pc := Returning(req), g := s.g.(rid := None))
    case Returning(req) =>
      if req.kind.StateChange? then s.(pc := Closing(req, StateTry))
      else if s.g.handoff then Log(s.(pc := PostRun(req), g := s.g.(handoff := false)), Hit(req.serial))
      else s.(pc := PostRun(req))
    case PostRun(req) => s.(pc := Closing(req, CellFinally(false)))
    case Closing(req, clause) =>
      var g := if clause.BackstopClause? && req.rid in s.g.inflight then ConsumePending(s.g, req.rid).0 else s.g;
      s.(pc := Finishing(req, clause, First), g := g)
    case Finishing(req, clause, First) => s.(pc := Finishing(req, clause, Second), g := ClearFinishing(s.g, req.rid))
    case Finishing(req, clause, Second) => s.(pc := Finishing(req, clause, Third), g := ClearTarget(s.g, req.rid))
    case Finishing(req, clause, Third) =>
      var t := s.(pc := if clause == CellFinally(true) then Closing(req, BackstopClause) else Replying(req, clause),
                  g := DropRequest(s.g, req.rid));
      if Finished(req.serial) in s.hist then t else Log(t, Finished(req.serial))
    case Replying(req, _) => Log(s.(pc := Idle), Done(req.serial))
  }

  // ---------------------------------------------------------------- what a history must look like

  predicate Allowed(h: seq<Event>, e: Event) {
    match e
    case Accepted(n) => Accepted(n) !in h
    case Resolved(n) => Accepted(n) in h && Finished(n) !in h
    case Hit(n) => Resolved(n) in h && Finished(n) !in h
    case Finished(n) => Accepted(n) in h && Finished(n) !in h
    case Done(n) => Finished(n) in h && Done(n) !in h
  }

  /** Every event was allowed by the events before it. */
  ghost predicate Legit(h: seq<Event>) {
    h != [] ==> Legit(h[..|h| - 1]) && Allowed(h[..|h| - 1], h[|h| - 1])
  }

  lemma LegitAppend(h: seq<Event>, e: Event)
    requires Legit(h) && Allowed(h, e)
    ensures Legit(h + [e])
  {
    assert (h + [e])[..|h|] == h;
  }

  lemma {:induction false} LegitPrefix(h: seq<Event>, k: nat)
    requires Legit(h) && k <= |h|
    ensures Legit(h[..k])
    decreases |h| - k
  {
    if k == |h| {
      assert h[..k] == h;
    } else {
      LegitPrefix(h, k + 1);
      assert h[..k + 1][..k] == h[..k];
    }
  }

  // ---------------------------------------------------------------- the invariant

  function Rids(rs: seq<Request>): set<Rid> {
    set q | q in rs :: q.rid
  }

  ghost predicate DistinctRids(rs: seq<Request>) {
    forall i, j :: 0 <= i < j < |rs| ==> rs[i].rid != rs[j].rid
  }

  function Serials(rs: seq<Request>): set<nat> {
    set q | q in rs :: q.serial
  }

  /** The serial numbers the main thread still owes a done event. */
  function Owed(s: State): set<nat> {
    Serials(s.queue) + if s.pc.Idle? then {} else {s.pc.req.serial}
  }

  /** Requests are served in the order they were accepted. */
  ghost predicate Order(s: State) {
    && (forall i, j :: 0 <= i < j < |s.queue| ==> s.queue[i].serial < s.queue[j].serial)
    && (forall q :: q in s.queue ==> q.serial < s.next)
    && (!s.pc.Idle? ==> s.pc.req.serial < s.next && forall q :: q in s.queue ==> s.pc.req.serial < q.serial)
  }

  ghost predicate InflightIsOpen(s: State) {
    DistinctRids(Open(s)) && s.g.inflight == Rids(Open(s))
  }

  predicate NoSlot(g: Globals) {
    g.task == NoTask && g.rid.None? && g.finishing.None? && g.target.None? && !g.handoff
  }

  /** The slots in the finishing phase of a request, before its finishing slot is cleared. */
  predicate FinishingSlots(g: Globals, rid: Rid) {
    && g.task == NoTask && g.rid.None? && g.finishing == Some(rid)
    && (g.target.None? || g.target == Some(rid)) && (g.handoff ==> g.target == Some(rid))
  }

  predicate ActiveSlots(g: Globals, rid: Rid) {
    g.rid == Some(rid) && (g.target.None? || g.target == Some(rid)) && (g.handoff ==> g.target == Some(rid))
  }

  /** What each slot holds at each point of the main thread. */
  predicate Slots(s: State) {
    var g := s.g;
    var over := !s.pc.Idle? && Finished(s.pc.req.serial) in s.hist;
    match s.pc
    case Idle => NoSlot(g)
    case Starting(req) => !over && NoSlot(g)
    case Activating(req, stage) =>
      !over && !stage.Third? && NoSlot(g.(rid := None, task := NoTask)) && g.rid == Some(req.rid)
      && g.task == (if stage.First? then NoTask else Live)
    case Running(req) => !over && ActiveSlots(g, req.rid) && g.task == Live && g.finishing.None? && !g.handoff
    case Handoff(req) => !over && ActiveSlots(g, req.rid) && g.task == Complete && g.finishing.None?
    case Retiring(req, stage) =>
      !over && !stage.Third? && ActiveSlots(g, req.rid) && g.finishing == Some(req.rid)
      && g.task == (if stage.First? then Complete else NoTask)
    case Returning(req) => !over && FinishingSlots(g, req.rid)
    case PostRun(req) => !over && FinishingSlots(g, req.rid) && req.kind.Cell?
    case Closing(req, clause) => CloseSlots(s, req, clause)
    case Finishing(req, clause, stage) =>
      if over then clause.BackstopClause? && NoSlot(g) && req.rid !in g.inflight
      else (match stage
            case First => CloseSlots(s, req, clause)
            case Second => NoSlot(g.(target := None)) && (g.target.None? || g.target == Some(req.rid))
            case Third => NoSlot(g))
    case Replying(req, clause) => over && NoSlot(g)
    case Dead(req) => if over then NoSlot(g) else FinishingSlots(g, req.rid)
  }

  predicate CloseSlots(s: State, req: Request, clause: Clause) {
    if clause.BackstopClause? then
      NoSlot(s.g) || (Finished(req.serial) !in s.hist && FinishingSlots(s.g, req.rid))
    else Finished(req.serial) !in s.hist && FinishingSlots(s.g, req.rid)
  }

  /** The requests that have not been activated yet, in the order they will be. */
  function Waiting(s: State): seq<Request> {
    if (match s.pc
        case Starting(_) => true
        case Activating(_, _) => true
        case Closing(req, BackstopClause) => s.g.finishing.None? && Finished(req.serial) !in s.hist
        case _ => false)
    then [s.pc.req] + s.queue else s.queue
  }

  /** A waiting request has an interrupt parked for it exactly when a message addressed it. */
  ghost predicate ParkedFor(w: seq<Request>, ids: set<Rid>, any: bool, h: seq<Event>) {
    && ids <= Rids(w)
    && (any ==> w != [])
    && (forall i :: 0 <= i < |w| ==>
        (Resolved(w[i].serial) in h <==> w[i].rid in ids || (any && i == 0)))
    && (forall i :: 0 <= i < |w| ==> Hit(w[i].serial) !in h)
  }

  ghost predicate Parking(s: State) {
    && ParkedFor(Waiting(s), s.g.parkedIds, s.g.parkedAny, s.hist)
    && (s.g.parkedAny ==> Waiting(s) == Open(s))
  }

  /** A request that was activated and addressed has been hit or is still targeted. */
  predicate Aimed(s: State) {
    match s.pc
    case Idle => true
    case Starting(_) => true
    case Activating(_, _) => true
    case _ =>
      var n := s.pc.req.serial;
      && (s.g.target.Some? ==> Resolved(n) in s.hist)
      && (Resolved(n) in s.hist && (s.g.rid.Some? || s.g.finishing.Some?)
          ==> Hit(n) in s.hist || s.g.target == Some(s.pc.req.rid))
  }

  /** The history below a bound on serial numbers, given what is still owed and what is queued. */
  ghost predicate HistoryOf(h: seq<Event>, next: nat, owed: set<nat>, queued: set<nat>) {
    && Legit(h)
    && (forall e :: e in h ==> e.serial < next)
    && (forall n: nat :: n < next ==> Accepted(n) in h)
    && (forall n: nat :: n < next ==> (Done(n) in h <==> n !in owed))
    && (forall n :: n in queued ==> Finished(n) !in h)
  }

  ghost predicate History(s: State) {
    HistoryOf(s.hist, s.next, Owed(s), Serials(s.queue))
  }

  ghost predicate Inv(s: State) {
    Order(s) && InflightIsOpen(s) && Slots(s) && Parking(s) && Aimed(s) && History(s)
  }

  lemma StartInv()
    ensures Inv(START)
  {
  }

  // ---------------------------------------------------------------- the reader

  lemma {:induction false} AddresseeAt(open: seq<Request>, msg: Option<Rid>, i: nat)
    requires DistinctRids(open) && i < |open|
    requires if msg.None? then i == 0 else open[i].rid == msg.value
    ensures Addressee(open, msg) == Some(open[i].serial)
  {
    if i > 0 {
      AddresseeAt(open[1..], msg, i - 1);
    }
  }

  lemma {:induction false} AddresseeNone(open: seq<Request>, msg: Option<Rid>)
    requires if msg.None? then open == [] else msg.value !in Rids(open)
    ensures Addressee(open, msg).None?
  {
    if open != [] {
      assert open[0] in open;
      assert forall q :: q in open[1..] ==> q in open;
      AddresseeNone(open[1..], msg);
    }
  }

  /** Appending an event below the bound, other than an acceptance or a done event. */
  lemma AppendEvent(h: seq<Event>, next: nat, owed: set<nat>, queued: set<nat>, e: Event)
    requires HistoryOf(h, next, owed, queued) && Allowed(h, e) && e.serial < next
    requires !e.Done? && (e.Finished? ==> e.serial !in queued)
    ensures HistoryOf(h + [e], next, owed, queued)
  {
    LegitAppend(h, e);
    assert forall x :: x in h + [e] <==> x in h || x == e;
  }

  lemma AppendAccepted(h: seq<Event>, next: nat, owed: set<nat>, queued: set<nat>)
    requires HistoryOf(h, next, owed, queued)
    ensures HistoryOf(h + [Accepted(next)], next + 1, owed + {next}, queued + {next})
  {
    assert Accepted(next) !in h && Done(next) !in h && Finished(next) !in h;
    LegitAppend(h, Accepted(next));
    assert forall x :: x in h + [Accepted(next)] <==> x in h || x == Accepted(next);
  }

  lemma AppendDone(h: seq<Event>, next: nat, owed: set<nat>, queued: set<nat>, n: nat)
    requires HistoryOf(h, next, owed, queued) && n in owed && n < next && Finished(n) in h
    ensures HistoryOf(h + [Done(n)], next, owed - {n}, queued)
  {
    LegitAppend(h, Done(n));
    assert forall x :: x in h + [Done(n)] <==> x in h || x == Done(n);
  }

  lemma AcceptHistory(s: State, rid: Rid, kind: Kind)
    requires History(s) && rid !in s.g.inflight
    ensures History(AcceptStep(s, rid, kind))
  {
    var t := AcceptStep(s, rid, kind);
    AppendAccepted(s.hist, s.next, Owed(s), Serials(s.queue));
    assert forall q :: q in t.queue <==> q in s.queue || q == Request(rid, s.next, kind);
    assert Serials(t.queue) == Serials(s.queue) + {s.next};
    assert Owed(t) == Owed(s) + {s.next};
  }

  lemma AcceptParking(s: State, rid: Rid, kind: Kind)
    requires Inv(s) && !Locked(s.pc) && rid !in s.g.inflight
    ensures Parking(AcceptStep(s, rid, kind))
  {
    var t := AcceptStep(s, rid, kind);
    var r := Request(rid, s.next, kind);
    var w := Waiting(s);
    assert Waiting(t) == w + [r] && Open(t) == Open(s) + [r];
    assert forall q :: q in w ==> q in Open(s);
    assert Rids(w) <= Rids(Open(s));
    assert rid !in s.g.parkedIds;
    assert s.g.parkedIds <= Rids(w + [r]) by {
      assert forall q :: q in w ==> q in w + [r];
    }
    assert Resolved(s.next) !in s.hist && Hit(s.next) !in s.hist;
  }

  lemma AcceptOrder(s: State, rid: Rid, kind: Kind)
    requires Order(s) && rid !in s.g.inflight
    ensures Order(AcceptStep(s, rid, kind))
    ensures Open(AcceptStep(s, rid, kind)) == Open(s) + [Request(rid, s.next, kind)]
  {
    var t := AcceptStep(s, rid, kind);
    var r := Request(rid, s.next, kind);
    assert forall q :: q in t.queue <==> q in s.queue || q == r;
    assert Open(t) == Open(s) + [r];
  }

  lemma RidsAppend(rs: seq<Request>, r: Request)
    requires DistinctRids(rs) && r.rid !in Rids(rs)
    ensures DistinctRids(rs + [r]) && Rids(rs + [r]) == Rids(rs) + {r.rid}
  {
    assert forall i :: 0 <= i < |rs| ==> rs[i].rid in Rids(rs);
  }

  lemma AcceptOpen(s: State, rid: Rid, kind: Kind)
    requires Order(s) && InflightIsOpen(s) && rid !in s.g.inflight
    ensures Order(AcceptStep(s, rid, kind)) && InflightIsOpen(AcceptStep(s, rid, kind))
  {
    AcceptOrder(s, rid, kind);
    RidsAppend(Open(s), Request(rid, s.next, kind));
  }

  lemma AcceptSlots(s: State, rid: Rid, kind: Kind)
    requires Slots(s) && Aimed(s) && !Locked(s.pc) && rid !in s.g.inflight
    ensures Slots(AcceptStep(s, rid, kind)) && Aimed(AcceptStep(s, rid, kind))
  {
    assert forall e :: e in AcceptStep(s, rid, kind).hist <==> e in s.hist || e == Accepted(s.next);
  }

  lemma AcceptKeeps(s: State, rid: Rid, kind: Kind)
    requires Inv(s) && Enabled(s, Accept(rid, kind))
    ensures Inv(Next(s, Accept(rid, kind)))
  {
    if rid !in s.g.inflight {
      AcceptHistory(s, rid, kind);
      AcceptOpen(s, rid, kind);
      AcceptSlots(s, rid, kind);
      AcceptParking(s, rid, kind);
    }
  }

  predicate Targetable(g: Globals) {
    g.rid.Some? || g.finishing.Some?
  }

  /** Outside the critical sections the two slots never name two requests. */
  lemma SlotNamesCurrent(s: State)
    requires Slots(s) && !Locked(s.pc)
    ensures if Targetable(s.g)
            then !s.pc.Idle? && Open(s) == [s.pc.req] + s.queue && Waiting(s) == s.queue
                 && (s.g.rid.Some? ==> s.g.rid.value == s.pc.req.rid)
                 && (s.g.finishing.Some? ==> s.g.finishing.value == s.pc.req.rid)
            else Waiting(s) == Open(s)
  {
  }

  /** The message addresses the i-th open request, and the code targets or parks for that one. */
  ghost predicate AddressedAt(s: State, msg: Option<Rid>, i: nat) {
    && i < |Open(s)|
    && Addressee(Open(s), msg) == Some(Open(s)[i].serial)
    && (if msg.None? then i == 0 else Open(s)[i].rid == msg.value)
    && RequestInterrupt(s.g, msg).0 ==
       if Targetable(s.g) && i == 0 then s.g.(target := Some(Open(s)[0].rid))
       else if msg.None? then s.g.(parkedAny := true)
       else s.g.(parkedIds := s.g.parkedIds + {msg.value})
  }

  /** The code addresses the unfinished request that the documented rule names, or does nothing at all. */
  lemma RequestFindsAddressee(s: State, msg: Option<Rid>)
    requires Slots(s) && InflightIsOpen(s) && !Locked(s.pc)
    ensures Addressee(Open(s), msg).None? ==> InterruptStep(s, msg) == s
    ensures Addressee(Open(s), msg).Some? ==> exists i :: AddressedAt(s, msg, i)
  {
    SlotNamesCurrent(s);
    var open := Open(s);
    if (msg.None? && open == []) || (msg.Some? && msg.value !in Rids(open)) {
      AddresseeNone(open, msg);
      assert open != [] ==> open[0].rid in Rids(open);
    } else {
      var i :| 0 <= i < |open| && if msg.None? then i == 0 else open[i].rid == msg.value;
      AddresseeAt(open, msg, i);
      assert open[0].rid in Rids(open);
      assert AddressedAt(s, msg, i);
    }
  }

  lemma InterruptHistory(s: State, msg: Option<Rid>)
    requires Slots(s) && InflightIsOpen(s) && Order(s) && History(s) && !Locked(s.pc)
    ensures History(InterruptStep(s, msg))
  {
    RequestFindsAddressee(s, msg);
    if Addressee(Open(s), msg).Some? {
      var i: nat :| AddressedAt(s, msg, i);
      OpenIsUnfinished(s, i);
      AppendEvent(s.hist, s.next, Owed(s), Serials(s.queue), Resolved(Open(s)[i].serial));
    }
  }

  lemma OpenIsUnfinished(s: State, i: nat)
    requires Order(s) && History(s) && i < |Open(s)|
    ensures Open(s)[i].serial < s.next && Finished(Open(s)[i].serial) !in s.hist
    ensures Accepted(Open(s)[i].serial) in s.hist
  {
    assert Open(s)[i] in s.queue || Open(s)[i] == s.pc.req;
    assert Open(s)[i] in s.queue ==> Open(s)[i].serial in Serials(s.queue);
  }

  /** Addressing a waiting request and parking for it go together. */
  lemma ParkOne(w: seq<Request>, ids: set<Rid>, any: bool, h: seq<Event>, i: nat, byId: bool)
    requires ParkedFor(w, ids, any, h) && DistinctRids(w) && i < |w|
    requires forall j, k :: 0 <= j < k < |w| ==> w[j].serial < w[k].serial
    requires !byId ==> i == 0
    ensures ParkedFor(w, if byId then ids + {w[i].rid} else ids, any || !byId, h + [Resolved(w[i].serial)])
  {
    var h' := h + [Resolved(w[i].serial)];
    assert forall e :: e in h' <==> e in h || e == Resolved(w[i].serial);
    assert w[i] in w;
  }

  lemma UnrelatedEvent(w: seq<Request>, ids: set<Rid>, any: bool, h: seq<Event>, e: Event)
    requires ParkedFor(w, ids, any, h)
    requires e.Resolved? || e.Hit? ==> forall i :: 0 <= i < |w| ==> w[i].serial != e.serial
    ensures ParkedFor(w, ids, any, h + [e])
  {
    assert forall x :: x in h + [e] <==> x in h || x == e;
  }

  /** The interrupt hits the request it addresses: nothing is parked. */
  lemma InterruptTargeting(s: State, msg: Option<Rid>)
    requires Parking(s) && DistinctRids(Open(s)) && AddressedAt(s, msg, 0) && Targetable(s.g)
    requires forall i, j :: 0 <= i < j < |Open(s)| ==> Open(s)[i].serial < Open(s)[j].serial
    requires Waiting(s) == Open(s)[1..]
    ensures
      var t := InterruptStep(s, msg);
      ParkedFor(Waiting(s), t.g.parkedIds, t.g.parkedAny, t.hist) && (t.g.parkedAny ==> Waiting(s) == Open(s))
  {
    UnrelatedEvent(Waiting(s), s.g.parkedIds, s.g.parkedAny, s.hist, Resolved(Open(s)[0].serial));
  }

  lemma InterruptParkingAt(s: State, msg: Option<Rid>, i: nat)
    requires Parking(s) && DistinctRids(Open(s)) && AddressedAt(s, msg, i)
    requires forall i, j :: 0 <= i < j < |Open(s)| ==> Open(s)[i].serial < Open(s)[j].serial
    requires Waiting(s) == if Targetable(s.g) then Open(s)[1..] else Open(s)
    ensures
      var t := InterruptStep(s, msg);
      ParkedFor(Waiting(s), t.g.parkedIds, t.g.parkedAny, t.hist) && (t.g.parkedAny ==> Waiting(s) == Open(s))
  {
    var open, w := Open(s), Waiting(s);
    var h := InterruptStep(s, msg).hist;
    assert h == s.hist + [Resolved(open[i].serial)];
    if Targetable(s.g) && i == 0 {
      InterruptTargeting(s, msg);
    } else {
      var k := if Targetable(s.g) then i - 1 else i;
      assert w[k] == open[i];
      TailSorted(open);
      ParkOne(w, s.g.parkedIds, s.g.parkedAny, s.hist, k, msg.Some?);
    }
  }

  lemma TailSorted(rs: seq<Request>)
    requires DistinctRids(rs) && forall i, j :: 0 <= i < j < |rs| ==> rs[i].serial < rs[j].serial
    ensures rs != [] ==>
              DistinctRids(rs[1..])
              && forall i, j :: 0 <= i < j < |rs[1..]| ==> rs[1..][i].serial < rs[1..][j].serial
  {
  }

  lemma InterruptParking(s: State, msg: Option<Rid>)
    requires Parking(s) && Slots(s) && InflightIsOpen(s) && Order(s) && !Locked(s.pc)
    ensures Parking(InterruptStep(s, msg))
  {
    RequestFindsAddressee(s, msg);
    if Addressee(Open(s), msg).Some? {
      var i: nat :| AddressedAt(s, msg, i);
      SlotNamesCurrent(s);
      WaitingIgnoresMessages(s, msg);
      OpenSerialsDiffer(s);
      InterruptParkingAt(s, msg, i);
    }
  }

  lemma WaitingIgnoresMessages(s: State, msg: Option<Rid>)
    ensures Waiting(InterruptStep(s, msg)) == Waiting(s) && Open(InterruptStep(s, msg)) == Open(s)
  {
    var t := InterruptStep(s, msg);
    assert forall n: nat :: Finished(n) in t.hist <==> Finished(n) in s.hist;
  }

  lemma OpenSerialsDiffer(s: State)
    requires Order(s)
    ensures forall i, j :: 0 <= i < j < |Open(s)| ==> Open(s)[i].serial < Open(s)[j].serial
  {
    var open := Open(s);
    forall i, j | 0 <= i < j < |open|
      ensures open[i].serial < open[j].serial
    {
      assert open != s.queue ==> open[j] in s.queue;
    }
  }

  lemma RetargetKeepsSlots(s: State, t: State)
    requires Slots(s) && !Locked(s.pc) && t.pc == s.pc
    requires forall n: nat :: Finished(n) in t.hist <==> Finished(n) in s.hist
    requires t.g == s.g.(parkedIds := t.g.parkedIds, parkedAny := t.g.parkedAny, target := t.g.target)
    requires t.g.target == s.g.target || (Targetable(s.g) && t.g.target == Some(s.pc.req.rid))
    ensures Slots(t)
  {
  }

  lemma RequestRetargets(s: State, msg: Option<Rid>)
    requires Slots(s) && !Locked(s.pc)
    ensures
      var g := InterruptStep(s, msg).g;
      && g == s.g.(parkedIds := g.parkedIds, parkedAny := g.parkedAny, target := g.target)
      && (g.target == s.g.target || (Targetable(s.g) && g.target == Some(s.pc.req.rid)))
  {
    hide Slots, Open, Waiting, Addressee;
    SlotNamesCurrent(s);
  }

  lemma InterruptSlots(s: State, msg: Option<Rid>)
    requires Slots(s) && !Locked(s.pc)
    ensures Slots(InterruptStep(s, msg))
  {
    RequestRetargets(s, msg);
    var t := InterruptStep(s, msg);
    assert forall n: nat :: Finished(n) in t.hist <==> Finished(n) in s.hist;
    RetargetKeepsSlots(s, t);
  }

  lemma InterruptAimedAt(s: State, msg: Option<Rid>, i: nat)
    requires Slots(s) && Aimed(s) && !Locked(s.pc) && AddressedAt(s, msg, i)
    requires Targetable(s.g) && i > 0 ==> Open(s)[i].serial != s.pc.req.serial
    ensures Aimed(InterruptStep(s, msg))
  {
    var t := InterruptStep(s, msg);
    assert forall n: nat :: Hit(n) in t.hist <==> Hit(n) in s.hist;
  }

  lemma InterruptAimed(s: State, msg: Option<Rid>)
    requires Slots(s) && Aimed(s) && InflightIsOpen(s) && Order(s) && !Locked(s.pc)
    ensures Aimed(InterruptStep(s, msg))
  {
    RequestFindsAddressee(s, msg);
    if Addressee(Open(s), msg).Some? {
      var i: nat :| AddressedAt(s, msg, i);
      SlotNamesCurrent(s);
      OpenSerialsDiffer(s);
      InterruptAimedAt(s, msg, i);
    }
  }

  lemma InterruptOpen(s: State, msg: Option<Rid>)
    requires Order(s) && InflightIsOpen(s)
    ensures Order(InterruptStep(s, msg)) && InflightIsOpen(InterruptStep(s, msg))
  {
    WaitingIgnoresMessages(s, msg);
    MessageKeepsPlace(s, msg);
    SameOpen(s, InterruptStep(s, msg));
  }

  lemma MessageKeepsPlace(s: State, msg: Option<Rid>)
    ensures SamePlace(s, InterruptStep(s, msg)) && InterruptStep(s, msg).g.inflight == s.g.inflight
  {
  }

  lemma InterruptKeeps(s: State, msg: Option<Rid>)
    requires Inv(s) && Enabled(s, Interrupt(msg))
    ensures Inv(Next(s, Interrupt(msg)))
  {
    InterruptHistory(s, msg);
    InterruptParking(s, msg);
    InterruptSlots(s, msg);
    InterruptAimed(s, msg);
    InterruptOpen(s, msg);
  }

  // ---------------------------------------------------------------- the signal handler

  /** The handler moves no request and hits only the current one, which a message addressed. */
  predicate SamePlace(s: State, t: State) {
    && t.queue == s.queue && t.next == s.next && t.pc.Idle? == s.pc.Idle?
    && (!s.pc.Idle? ==> t.pc.req == s.pc.req)
  }

  lemma SigintShape(s: State, swallowed: bool)
    requires Slots(s) && Aimed(s) && !s.pc.Dead?
    ensures
      var t := SigintStep(s, swallowed);
      && SamePlace(s, t)
      && t.g.(interrupted := s.g.interrupted, handoff := s.g.handoff) == s.g
      && Open(t) == Open(s) && Waiting(t) == Waiting(s)
      && (t.hist == s.hist || (
            && !s.pc.Idle? && Waiting(s) == s.queue && t.hist == s.hist + [Hit(s.pc.req.serial)]
            && Resolved(s.pc.req.serial) in s.hist && Finished(s.pc.req.serial) !in s.hist))
  {
    var t := SigintStep(s, swallowed);
    assert forall n: nat :: Finished(n) in t.hist <==> Finished(n) in s.hist;
    match HandleSigint(s.g).1 {
      case RaisedInFinishing =>
        assert s.pc.Returning? || s.pc.PostRun? || s.pc.Closing? || (s.pc.Finishing? && s.pc.stage.First?);
      case HitActive => assert s.pc.Running?;
      case Recorded => assert t.hist == s.hist && t.pc == s.pc;
      case Dropped => assert t == s;
    }
  }

  lemma RaiseSlots(s: State, swallowed: bool)
    requires Slots(s) && Aimed(s) && !s.pc.Dead? && HandleSigint(s.g).1.RaisedInFinishing?
    ensures Slots(SigintStep(s, swallowed)) && Aimed(SigintStep(s, swallowed))
  {
    var t := SigintStep(s, swallowed);
    assert s.pc.Returning? || s.pc.PostRun? || s.pc.Closing? || (s.pc.Finishing? && s.pc.stage.First?);
    assert FinishingSlots(t.g, s.pc.req.rid) && Finished(s.pc.req.serial) !in t.hist;
  }

  lemma SigintSlots(s: State, swallowed: bool)
    requires Slots(s) && Aimed(s) && !s.pc.Dead?
    ensures Slots(SigintStep(s, swallowed)) && Aimed(SigintStep(s, swallowed))
  {
    var t := SigintStep(s, swallowed);
    match HandleSigint(s.g).1 {
      case RaisedInFinishing => RaiseSlots(s, swallowed);
      case HitActive => assert s.pc.Running?;
      case Recorded => assert t.hist == s.hist && t.pc == s.pc;
      case Dropped => assert t == s;
    }
  }

  lemma SigintHistory(s: State, swallowed: bool)
    requires Slots(s) && Aimed(s) && History(s) && !s.pc.Dead? && Order(s)
    ensures History(SigintStep(s, swallowed))
  {
    SigintShape(s, swallowed);
    var t := SigintStep(s, swallowed);
    if t.hist != s.hist {
      HitHistory(s, t);
    }
  }

  lemma SigintParking(s: State, swallowed: bool)
    requires Slots(s) && Aimed(s) && Parking(s) && !s.pc.Dead? && Order(s)
    ensures Parking(SigintStep(s, swallowed))
  {
    SigintShape(s, swallowed);
    if SigintStep(s, swallowed).hist != s.hist {
      UnrelatedEvent(s.queue, s.g.parkedIds, s.g.parkedAny, s.hist, Hit(s.pc.req.serial));
    }
  }

  lemma SigintKeeps(s: State, swallowed: bool)
    requires Inv(s) && Enabled(s, Sigint(swallowed))
    ensures Inv(Next(s, Sigint(swallowed)))
  {
    SigintShape(s, swallowed);
    SigintSlots(s, swallowed);
    SigintHistory(s, swallowed);
    SigintParking(s, swallowed);
    SameOpen(s, SigintStep(s, swallowed));
  }

  lemma SameOpen(s: State, t: State)
    requires Order(s) && InflightIsOpen(s)
    requires SamePlace(s, t)
    requires Open(t) == Open(s) && t.g.inflight == s.g.inflight
    ensures Order(t) && InflightIsOpen(t)
  {
  }

  // ---------------------------------------------------------------- the main thread

  /**
   * The one step that harms a request: the backstop of a request that is already
   * finished takes the lock while its id is in flight again.
   */
  predicate TakesReusedId(s: State, step: Step) {
    && step.Advance? && s.pc.Closing? && s.pc.clause.BackstopClause?
    && Finished(s.pc.req.serial) in s.hist && s.pc.req.rid in s.g.inflight
  }

  /** Main-thread steps that only move the program counter and the slots. */
  predicate MovesSlotsOnly(s: State, step: Step) {
    match step
    case StartFails => true
    case PostRunFails => true
    case ReplyFails => true
    case Advance => (
      match s.pc
      case Starting(_) => true
      case Activating(_, stage) => stage.First?
      case Running(_) => true
      case Handoff(_) => true
      case Retiring(_, _) => true
      case Returning(req) => req.kind.StateChange? || !s.g.handoff
      case PostRun(_) => true
      case Closing(_, clause) => !clause.BackstopClause?
      case Finishing(_, _, stage) => !stage.Third?
      case _ => false)
    case _ => false
  }

  lemma MoveAims(s: State, step: Step)
    requires Slots(s) && Aimed(s) && Enabled(s, step) && MovesSlotsOnly(s, step)
    ensures Aimed(Next(s, step))
  {
  }

  predicate BeforeReturning(pc: Pc) {
    pc.Starting? || pc.Activating? || pc.Running? || pc.Handoff? || pc.Retiring?
  }

  lemma ActiveMoveSlots(s: State)
    requires Slots(s) && Enabled(s, Advance) && MovesSlotsOnly(s, Advance) && BeforeReturning(s.pc)
    ensures Slots(AdvanceStep(s))
  {
  }

  lemma LateMoveSlots(s: State)
    requires Slots(s) && Enabled(s, Advance) && MovesSlotsOnly(s, Advance) && !BeforeReturning(s.pc)
    ensures Slots(AdvanceStep(s))
  {
  }

  lemma FailureSlots(s: State, step: Step)
    requires Slots(s) && Enabled(s, step) && (step.StartFails? || step.PostRunFails? || step.ReplyFails?)
    ensures Slots(Next(s, step))
  {
  }

  lemma MoveSlots(s: State, step: Step)
    requires Slots(s) && Aimed(s) && Enabled(s, step) && MovesSlotsOnly(s, step)
    ensures Slots(Next(s, step)) && Aimed(Next(s, step))
  {
    MoveAims(s, step);
    hide Slots, Aimed, Open, Waiting;
    if !step.Advance? {
      FailureSlots(s, step);
    } else if BeforeReturning(s.pc) {
      ActiveMoveSlots(s);
    } else {
      LateMoveSlots(s);
    }
  }

  lemma MoveShape(s: State, step: Step)
    requires Slots(s) && Enabled(s, step) && MovesSlotsOnly(s, step)
    ensures
      var t := Next(s, step);
      && SamePlace(s, t) && t.hist == s.hist
      && t.g.inflight == s.g.inflight && t.g.parkedIds == s.g.parkedIds && t.g.parkedAny == s.g.parkedAny
      && Open(t) == Open(s) && Waiting(t) == Waiting(s)
  {
  }

  lemma MoveKeeps(s: State, step: Step)
    requires Inv(s) && Enabled(s, step) && MovesSlotsOnly(s, step)
    ensures Inv(Next(s, step))
  {
    MoveShape(s, step);
    MoveSlots(s, step);
    SameOpen(s, Next(s, step));
    SameHistory(s, Next(s, step));
  }

  lemma SameHistory(s: State, t: State)
    requires History(s) && t.hist == s.hist && t.next == s.next
    requires Owed(t) == Owed(s) && Serials(t.queue) <= Serials(s.queue)
    ensures History(t)
  {
  }

  lemma DequeueShape(s: State)
    requires s.pc.Idle? && s.queue != [] && Finished(s.queue[0].serial) !in s.hist
    ensures
      var t := AdvanceStep(s);
      && Owed(t) == Owed(s) && Serials(t.queue) <= Serials(s.queue)
      && Open(t) == Open(s) && Waiting(t) == Waiting(s)
  {
    assert s.queue == [s.queue[0]] + s.queue[1..];
    assert forall q :: q in s.queue <==> q == s.queue[0] || q in s.queue[1..];
  }

  lemma DequeueKeeps(s: State)
    requires Inv(s) && s.pc.Idle? && s.queue != []
    ensures Inv(AdvanceStep(s))
  {
    assert s.queue[0] in s.queue;
    assert s.queue[0].serial in Serials(s.queue);
    DequeueShape(s);
    SameHistory(s, AdvanceStep(s));
  }

  /** A request is hit at its activation exactly when a message addressed it while it waited. */
  lemma ActivationHitsTheAddressed(s: State)
    requires Inv(s) && s.pc.Activating? && s.pc.stage.Second?
    ensures Hit(s.pc.req.serial) in AdvanceStep(s).hist <==> Resolved(s.pc.req.serial) in s.hist
    ensures Hit(s.pc.req.serial) !in s.hist
  {
    assert Waiting(s)[0] == s.pc.req;
  }

  lemma Unpark(w: seq<Request>, ids: set<Rid>, any: bool, h: seq<Event>)
    requires w != [] && ParkedFor(w, ids, any, h) && DistinctRids(w)
    ensures ParkedFor(w[1..], ids - {w[0].rid}, false, h)
  {
    var v := w[1..];
    forall r | r in ids - {w[0].rid}
      ensures r in Rids(v)
    {
      var q :| q in w && q.rid == r;
      assert q in v;
    }
    forall i | 0 <= i < |v|
      ensures Resolved(v[i].serial) in h <==> v[i].rid in ids - {w[0].rid}
      ensures Hit(v[i].serial) !in h
    {
      assert v[i] == w[i + 1];
    }
  }

  lemma ActivateParking(s: State)
    requires Order(s) && DistinctRids(Open(s)) && Slots(s) && Parking(s) && s.pc.Activating? && s.pc.stage.Second?
    ensures Parking(AdvanceStep(s))
  {
    var w := Waiting(s);
    assert w == Open(s) && w[1..] == s.queue;
    Unpark(w, s.g.parkedIds, s.g.parkedAny, s.hist);
    UnrelatedEvent(s.queue, s.g.parkedIds - {s.pc.req.rid}, false, s.hist, Hit(s.pc.req.serial));
  }

  lemma HitHistory(s: State, t: State)
    requires Order(s) && History(s) && !s.pc.Idle?
    requires Resolved(s.pc.req.serial) in s.hist && Finished(s.pc.req.serial) !in s.hist
    requires t.hist == s.hist + [Hit(s.pc.req.serial)] && SamePlace(s, t)
    ensures History(t)
  {
    AppendEvent(s.hist, s.next, Owed(s), Serials(s.queue), Hit(s.pc.req.serial));
    assert Owed(t) == Owed(s);
  }

  lemma ActivateHistory(s: State)
    requires Inv(s) && s.pc.Activating? && s.pc.stage.Second?
    ensures History(AdvanceStep(s))
  {
    var t := AdvanceStep(s);
    if t.hist != s.hist {
      assert Waiting(s)[0] == s.pc.req;
      HitHistory(s, t);
    } else {
      SameHistory(s, t);
    }
  }

  lemma ActivateSlots(s: State)
    requires Inv(s) && s.pc.Activating? && s.pc.stage.Second?
    ensures Slots(AdvanceStep(s)) && Aimed(AdvanceStep(s))
  {
    ActivationHitsTheAddressed(s);
    var t := AdvanceStep(s);
    assert forall n: nat :: Resolved(n) in t.hist <==> Resolved(n) in s.hist;
  }

  lemma ActivateKeeps(s: State)
    requires Inv(s) && s.pc.Activating? && s.pc.stage.Second?
    ensures Inv(AdvanceStep(s))
  {
    ActivateParking(s);
    ActivateHistory(s);
    ActivateSlots(s);
    SameOpen(s, AdvanceStep(s));
  }

  lemma HandoffKeeps(s: State)
    requires Inv(s) && s.pc.Returning? && s.pc.req.kind.Cell? && s.g.handoff
    ensures Inv(AdvanceStep(s))
  {
    var t := AdvanceStep(s);
    HitHistory(s, t);
    UnrelatedEvent(s.queue, s.g.parkedIds, s.g.parkedAny, s.hist, Hit(s.pc.req.serial));
    SameOpen(s, t);
  }

  lemma DistinctTail(r: Request, rs: seq<Request>)
    requires DistinctRids([r] + rs)
    ensures DistinctRids(rs) && r.rid !in Rids(rs) && Rids([r] + rs) - {r.rid} == Rids(rs)
  {
    var all := [r] + rs;
    assert forall i :: 0 <= i < |rs| ==> rs[i] == all[i + 1];
    assert forall q :: q in all <==> q == r || q in rs;
    assert forall q :: q in rs ==> q.rid != all[0].rid;
    assert Rids(all) == {r.rid} + Rids(rs);
  }

  lemma BackstopParking(s: State)
    requires Slots(s) && Parking(s) && InflightIsOpen(s)
    requires s.pc.Closing? && s.pc.clause.BackstopClause? && Finished(s.pc.req.serial) !in s.hist
    ensures Parking(AdvanceStep(s))
  {
    var t := AdvanceStep(s);
    assert Open(s) == [s.pc.req] + s.queue && Open(t) == Open(s);
    assert s.pc.req in Open(s);
    DistinctTail(s.pc.req, s.queue);
    if s.g.finishing.None? {
      Unpark(Open(s), s.g.parkedIds, s.g.parkedAny, s.hist);
      assert Open(s)[1..] == s.queue;
    } else {
      assert s.g.parkedIds - {s.pc.req.rid} == s.g.parkedIds;
    }
  }

  lemma BackstopKeeps(s: State)
    requires Inv(s) && s.pc.Closing? && s.pc.clause.BackstopClause? && !TakesReusedId(s, Advance)
    ensures Inv(AdvanceStep(s))
  {
    var t := AdvanceStep(s);
    SameOpen(s, t);
    SameHistory(s, t);
    if Finished(s.pc.req.serial) !in s.hist {
      BackstopParking(s);
    }
  }

  lemma DropOpen(s: State)
    requires Slots(s) && Order(s) && InflightIsOpen(s) && s.pc.Finishing? && s.pc.stage.Third?
    ensures Order(AdvanceStep(s)) && InflightIsOpen(AdvanceStep(s)) && Open(AdvanceStep(s)) == s.queue
  {
    var t := AdvanceStep(s);
    assert Finished(s.pc.req.serial) in t.hist;
    assert Open(t) == s.queue;
    if Finished(s.pc.req.serial) !in s.hist {
      assert Open(s) == [s.pc.req] + s.queue;
      DistinctTail(s.pc.req, s.queue);
    }
  }

  lemma DropParking(s: State)
    requires Slots(s) && InflightIsOpen(s) && Parking(s) && s.pc.Finishing? && s.pc.stage.Third?
    ensures Parking(AdvanceStep(s))
  {
    var t := AdvanceStep(s);
    assert Finished(s.pc.req.serial) in t.hist;
    assert Waiting(s) == s.queue && Waiting(t) == s.queue && Open(t) == s.queue;
    if Finished(s.pc.req.serial) !in s.hist {
      DistinctTail(s.pc.req, s.queue);
    }
    assert s.pc.req.rid !in Rids(s.queue);
    assert s.g.parkedAny ==> s.queue[0].rid in t.g.inflight by {
      if s.g.parkedAny {
        assert Open(s) == s.queue;
        assert s.queue[0].rid in s.g.inflight;
        assert Finished(s.pc.req.serial) in s.hist;
      }
    }
    UnrelatedEvent(s.queue, s.g.parkedIds, s.g.parkedAny, s.hist, Finished(s.pc.req.serial));
  }

  lemma DropHistory(s: State)
    requires Order(s) && History(s) && s.pc.Finishing? && s.pc.stage.Third?
    ensures History(AdvanceStep(s))
  {
    if Finished(s.pc.req.serial) in s.hist {
      SameHistory(s, AdvanceStep(s));
    } else {
      FinishHistory(s, AdvanceStep(s));
    }
  }

  lemma FinishHistory(s: State, t: State)
    requires Order(s) && History(s) && !s.pc.Idle? && Finished(s.pc.req.serial) !in s.hist
    requires t.hist == s.hist + [Finished(s.pc.req.serial)] && SamePlace(s, t)
    ensures History(t)
  {
    AppendEvent(s.hist, s.next, Owed(s), Serials(s.queue), Finished(s.pc.req.serial));
    assert Owed(t) == Owed(s);
  }

  lemma DropSlots(s: State)
    requires Slots(s) && s.pc.Finishing? && s.pc.stage.Third?
    ensures Slots(AdvanceStep(s)) && Aimed(AdvanceStep(s))
  {
  }

  lemma DropKeeps(s: State)
    requires Inv(s) && s.pc.Finishing? && s.pc.stage.Third?
    ensures Inv(AdvanceStep(s))
  {
    DropOpen(s);
    DropParking(s);
    DropHistory(s);
    DropSlots(s);
  }

  lemma ReplyHistory(s: State)
    requires Order(s) && History(s) && Slots(s) && s.pc.Replying?
    ensures History(AdvanceStep(s))
  {
    AppendDone(s.hist, s.next, Owed(s), Serials(s.queue), s.pc.req.serial);
    assert Owed(AdvanceStep(s)) == Owed(s) - {s.pc.req.serial};
  }

  lemma ReplyShape(s: State)
    requires Slots(s) && Order(s) && s.pc.Replying?
    ensures
      var t := AdvanceStep(s);
      Open(t) == Open(s) && Waiting(t) == Waiting(s) && Waiting(s) == s.queue && Order(t)
  {
  }

  lemma ReplyKeeps(s: State)
    requires Inv(s) && s.pc.Replying?
    ensures Inv(AdvanceStep(s))
  {
    ReplyHistory(s);
    ReplyShape(s);
    UnrelatedEvent(s.queue, s.g.parkedIds, s.g.parkedAny, s.hist, Done(s.pc.req.serial));
  }

  lemma AdvanceKeepsInv(s: State)
    requires Inv(s) && Enabled(s, Advance) && !MovesSlotsOnly(s, Advance) && !TakesReusedId(s, Advance)
    ensures Inv(AdvanceStep(s))
  {
    match s.pc {
      case Idle => DequeueKeeps(s);
      case Activating(_, _) => ActivateKeeps(s);
      case Returning(_) => HandoffKeeps(s);
      case Closing(_, _) => BackstopKeeps(s);
      case Finishing(_, _, _) => DropKeeps(s);
      case Replying(_, _) => ReplyKeeps(s);
    }
  }

  /** Every step but the one that takes a reused id keeps the invariant. */
  lemma StepKeepsInv(s: State, step: Step)
    requires Inv(s) && Enabled(s, step) && !TakesReusedId(s, step)
    ensures Inv(Next(s, step))
  {
    if MovesSlotsOnly(s, step) {
      MoveKeeps(s, step);
    } else {
      match step {
        case Accept(rid, kind) => AcceptKeeps(s, rid, kind);
        case Interrupt(msg) => InterruptKeeps(s, msg);
        case Sigint(swallowed) => SigintKeeps(s, swallowed);
        case Advance => AdvanceKeepsInv(s);
      }
    }
  }

  // ---------------------------------------------------------------- whole runs

  /** The state after a sequence of steps, if every one of them was enabled. */
  function Run(s: State, steps: seq<Step>): Option<State>
    decreases |steps|
  {
    if steps == [] then Some(s)
    else if !Enabled(s, steps[0]) then None
    else Run(Next(s, steps[0]), steps[1..])
  }

  /** No backstop ever takes an id that is in flight again. */
  predicate NoReuseTaken(s: State, steps: seq<Step>)
    decreases |steps|
  {
    steps == [] || (Enabled(s, steps[0]) ==>
      !TakesReusedId(s, steps[0]) && NoReuseTaken(Next(s, steps[0]), steps[1..]))
  }

  /** The host gives an id out again only once its done event was sent. */
  predicate WaitsForDone(s: State, steps: seq<Step>)
    decreases |steps|
  {
    steps == [] || (Enabled(s, steps[0]) ==>
      && (steps[0].Accept? && !s.pc.Idle? ==> steps[0].rid != s.pc.req.rid)
      && WaitsForDone(Next(s, steps[0]), steps[1..]))
  }

  lemma {:induction false} RunKeepsInv(s: State, steps: seq<Step>)
    requires Inv(s) && NoReuseTaken(s, steps) && Run(s, steps).Some?
    ensures Inv(Run(s, steps).value)
    decreases |steps|
  {
    if steps != [] {
      StepKeepsInv(s, steps[0]);
      RunKeepsInv(Next(s, steps[0]), steps[1..]);
    }
  }

  /** What each event of a legitimate history tells about the events before it. */
  predicate Explained(h: seq<Event>, k: nat)
    requires k < |h|
  {
    match h[k]
    case Hit(n) => Resolved(n) in h[..k] && Accepted(n) in h[..k] && Finished(n) !in h[..k]
    case Resolved(n) => Accepted(n) in h[..k] && Finished(n) !in h[..k]
    case Done(n) => Finished(n) in h[..k] && Done(n) !in h[..k]
    case _ => true
  }

  lemma {:induction false} AcceptedFirst(h: seq<Event>, n: nat)
    requires Legit(h) && Resolved(n) in h
    ensures Accepted(n) in h
  {
    var init := h[..|h| - 1];
    assert h == init + [h[|h| - 1]];
    if Resolved(n) in init {
      AcceptedFirst(init, n);
    }
  }

  lemma LegitExplains(h: seq<Event>, k: nat)
    requires Legit(h) && k < |h|
    ensures Explained(h, k)
  {
    LegitPrefix(h, k + 1);
    LegitPrefix(h, k);
    assert h[..k + 1][..k] == h[..k];
    if h[k].Hit? {
      AcceptedFirst(h[..k], h[k].serial);
    }
  }

  /**
   * Every hit, that of a parked interrupt at an activation included, comes after a message
   * addressed the request, and before it finished.
   */
  lemma HitsOnlyTheAddressed(steps: seq<Step>, k: nat)
    requires NoReuseTaken(START, steps) && Run(START, steps).Some?
    requires k < |Run(START, steps).value.hist|
    ensures Explained(Run(START, steps).value.hist, k)
  {
    StartInv();
    RunKeepsInv(START, steps);
    LegitExplains(Run(START, steps).value.hist, k);
  }

  /** What holds between any two steps, in terms of the shared globals alone. */
  ghost predicate Consistent(g: Globals) {
    && (g.rid.Some? ==> g.rid.value in g.inflight)
    && (g.finishing.Some? ==> g.finishing.value in g.inflight)
    && (g.target.Some? ==> g.target == g.rid || g.target == g.finishing)
    && (g.handoff ==> g.target.Some?)
    && g.parkedIds <= g.inflight
    && (g.parkedAny ==> g.inflight != {})
  }

  lemma InvIsConsistent(s: State)
    requires Slots(s) && InflightIsOpen(s) && Parking(s) && !Locked(s.pc)
    ensures Consistent(s.g)
  {
    SlotNamesCurrent(s);
    assert forall q :: q in Waiting(s) ==> q in Open(s);
    assert Open(s) != [] ==> Open(s)[0].rid in s.g.inflight;
  }

  lemma GlobalsStayConsistent(steps: seq<Step>)
    requires NoReuseTaken(START, steps) && Run(START, steps).Some? && !Locked(Run(START, steps).value.pc)
    ensures Consistent(Run(START, steps).value.g)
  {
    StartInv();
    RunKeepsInv(START, steps);
    InvIsConsistent(Run(START, steps).value);
  }

  // ---------------------------------------------------------------- where the protocol is exposed

  /** The invariant survives a step exactly when the step does not take a reused id. */
  lemma StepKeepsInvExactly(s: State, step: Step)
    requires Inv(s) && Enabled(s, step)
    ensures Inv(Next(s, step)) <==> !TakesReusedId(s, step)
  {
    if !TakesReusedId(s, step) {
      StepKeepsInv(s, step);
    } else {
      assert !Slots(Next(s, step));
    }
  }

  function Advances(s: State, n: nat): State
    decreases n
  {
    if n == 0 || !Enabled(s, Advance) then s else Advances(AdvanceStep(s), n - 1)
  }

  /** The damage: when the backstop is done, the later request with that id is queued, but not in flight. */
  lemma ReusedIdIsForgotten(s: State, q: Request)
    requires Inv(s) && TakesReusedId(s, Advance)
    requires q in s.queue && q.rid == s.pc.req.rid
    ensures
      var t := Advances(s, 4);
      && q in t.queue && Finished(q.serial) !in t.hist
      && q.rid !in t.g.inflight && RequestInterrupt(t.g, Some(q.rid)) == (t.g, false)
  {
    var s1 := AdvanceStep(s);
    var s2 := AdvanceStep(s1);
    var s3 := AdvanceStep(s2);
    assert Advances(s, 4) == Advances(s1, 3) == Advances(s2, 2) == Advances(s3, 1) == AdvanceStep(s3);
  }

  /** A finished current request keeps its id out of flight as long as the host waits. */
  predicate IdIsFree(s: State) {
    !s.pc.Idle? && Finished(s.pc.req.serial) in s.hist ==> s.pc.req.rid !in s.g.inflight
  }

  lemma WaitingHostKeepsIdFree(s: State, step: Step)
    requires Slots(s) && Aimed(s) && Enabled(s, step) && IdIsFree(s)
    requires forall q :: q in s.queue ==> Finished(q.serial) !in s.hist
    requires step.Accept? && !s.pc.Idle? ==> step.rid != s.pc.req.rid
    ensures IdIsFree(Next(s, step))
  {
    var t := Next(s, step);
    match step {
      case Interrupt(msg) => WaitingIgnoresMessages(s, msg);
      case Sigint(swallowed) => SigintShape(s, swallowed);
      case Advance =>
        if s.pc.Idle? {
          assert s.queue[0] in s.queue;
        }
      case _ =>
    }
    assert forall n: nat :: step != Advance ==> (Finished(n) in t.hist <==> Finished(n) in s.hist);
  }

  lemma {:induction false} WaitingHostNeverReuses(s: State, steps: seq<Step>)
    requires Inv(s) && IdIsFree(s) && WaitsForDone(s, steps)
    ensures NoReuseTaken(s, steps)
    decreases |steps|
  {
    if steps != [] && Enabled(s, steps[0]) {
      StepKeepsInv(s, steps[0]);
      WaitingHostKeepsIdFree(s, steps[0]);
      WaitingHostNeverReuses(Next(s, steps[0]), steps[1..]);
    }
  }

  /** For a host that reuses an id only after its done event, no run is exposed. */
  lemma PoliteHostsAreSafe(steps: seq<Step>)
    requires WaitsForDone(START, steps) && Run(START, steps).Some?
    ensures NoReuseTaken(START, steps) && Inv(Run(START, steps).value)
  {
    StartInv();
    WaitingHostNeverReuses(START, steps);
    RunKeepsInv(START, steps);
  }

  // ---------------------------------------------------------------- witnesses

  /** The steps lead from s to t without taking a reused id, and the host waits if it is polite. */
  predicate Leads(s: State, steps: seq<Step>, t: State, polite: bool) {
    Run(s, steps) == Some(t) && NoReuseTaken(s, steps) && (polite ==> WaitsForDone(s, steps))
  }

  lemma Prepend(s: State, step: Step, rest: seq<Step>, t: State, polite: bool)
    requires Enabled(s, step) && !TakesReusedId(s, step) && Leads(Next(s, step), rest, t, polite)
    requires polite && step.Accept? && !s.pc.Idle? ==> step.rid != s.pc.req.rid
    ensures Leads(s, [step] + rest, t, polite)
  {
    assert ([step] + rest)[1..] == rest;
  }

  /** A lone cell whose task is over, just before its post-run work. */
  const LONE_CELL: Request := Request("a", 0, Cell)
  const RETURNED: State :=
    State(QUIET.(inflight := {"a"}, finishing := Some("a")), Returning(LONE_CELL), [], 1, [Accepted(0)])

  const RUNNING_ALONE: State :=
    State(QUIET.(inflight := {"a"}, task := Live, rid := Some("a")), Running(LONE_CELL), [], 1, [Accepted(0)])

  lemma ReachRunning(rest: seq<Step>, t: State, polite: bool) returns (steps: seq<Step>)
    requires Leads(RUNNING_ALONE, rest, t, polite)
    ensures Leads(START, steps, t, polite)
  {
    hide Run, NoReuseTaken, WaitsForDone, Leads;
    var r := LONE_CELL;
    var g := QUIET.(inflight := {"a"});
    var s1 := State(g, Idle, [r], 1, [Accepted(0)]);
    var s2 := State(g, Starting(r), [], 1, [Accepted(0)]);
    var s3 := s2.(pc := Activating(r, First), g := g.(rid := Some("a")));
    var s4 := s3.(pc := Activating(r, Second), g := s3.g.(task := Live));
    assert Next(START, Accept("a", Cell)) == s1;
    assert AdvanceStep(s1) == s2 && AdvanceStep(s4) == RUNNING_ALONE;
    steps := [Advance] + rest;
    Prepend(s4, Advance, rest, t, polite);
    Prepend(s3, Advance, steps, t, polite); steps := [Advance] + steps;
    Prepend(s2, Advance, steps, t, polite); steps := [Advance] + steps;
    Prepend(s1, Advance, steps, t, polite); steps := [Advance] + steps;
    Prepend(START, Accept("a", Cell), steps, t, polite); steps := [Accept("a", Cell)] + steps;
  }

  lemma ReachReturned(rest: seq<Step>, t: State, polite: bool) returns (steps: seq<Step>)
    requires Leads(RETURNED, rest, t, polite)
    ensures Leads(START, steps, t, polite)
  {
    hide Run, NoReuseTaken, WaitsForDone, Leads;
    var r := LONE_CELL;
    var s5 := RUNNING_ALONE;
    var s6 := s5.(pc := Handoff(r), g := s5.g.(task := Complete));
    var s7 := s6.(pc := Retiring(r, First), g := s6.g.(finishing := Some("a")));
    var s8 := s7.(pc := Retiring(r, Second), g := s7.g.(task := NoTask));
    assert AdvanceStep(s8) == RETURNED;
    steps := [Advance] + rest;
    Prepend(s8, Advance, rest, t, polite);
    Prepend(s7, Advance, steps, t, polite); steps := [Advance] + steps;
    Prepend(s6, Advance, steps, t, polite); steps := [Advance] + steps;
    Prepend(s5, Advance, steps, t, polite); steps := [Advance] + steps;
    steps := ReachRunning(steps, t, polite);
  }

  /** Two interrupt messages in a row end the serve loop, however the host picks its ids. */
  lemma TwoInterruptsKillTheLoop()
    ensures exists steps, t :: Leads(START, steps, t, true) && t.pc.Dead?
  {
    var r1 := Next(RETURNED, Interrupt(None));
    var r2 := Next(r1, Sigint(false));
    var r3 := Next(r2, Interrupt(None));
    var t := Next(r3, Sigint(false));
    assert r1.g.target == Some("a") && r2.pc == Closing(LONE_CELL, BackstopClause);
    assert r3.g == r2.g && r3.pc == r2.pc && t.pc.Dead?;
    var last := [Interrupt(None)] + ([Sigint(false)] + []);
    Prepend(r3, Sigint(false), [], t, true);
    Prepend(r2, Interrupt(None), [Sigint(false)] + [], t, true);
    Prepend(r1, Sigint(false), last, t, true);
    Prepend(RETURNED, Interrupt(None), [Sigint(false)] + last, t, true);
    var steps := ReachReturned([Interrupt(None)] + ([Sigint(false)] + last), t, true);
  }

  /** The lone cell after an interrupt hit its output drain and the finally clause finished it. */
  const DRAINED: State :=
    State(QUIET, Closing(LONE_CELL, BackstopClause), [], 1, [Accepted(0), Resolved(0), Hit(0), Finished(0)])

  /** The lone cell, its drain broken by an interrupt, on its way into the finally clause. */
  const DRAIN_BROKEN: State :=
    State(RETURNED.g.(target := Some("a")), Closing(LONE_CELL, CellFinally(true)), [], 1,
          [Accepted(0), Resolved(0), Hit(0)])

  lemma ReachDrainBroken(rest: seq<Step>, t: State, polite: bool) returns (steps: seq<Step>)
    requires Leads(DRAIN_BROKEN, rest, t, polite)
    ensures Leads(START, steps, t, polite)
  {
    hide Run, NoReuseTaken, WaitsForDone, Leads;
    var r1 := RETURNED.(pc := PostRun(LONE_CELL));
    var r2 := r1.(g := DRAIN_BROKEN.g, hist := [Accepted(0), Resolved(0)]);
    assert Next(r1, Interrupt(None)) == r2;
    assert Next(r2, Sigint(false)) == DRAIN_BROKEN;
    steps := [Sigint(false)] + rest;
    Prepend(r2, Sigint(false), rest, t, polite);
    Prepend(r1, Interrupt(None), steps, t, polite); steps := [Interrupt(None)] + steps;
    Prepend(RETURNED, Advance, steps, t, polite); steps := [Advance] + steps;
    steps := ReachReturned(steps, t, polite);
  }

  lemma ReachDrained(rest: seq<Step>, t: State, polite: bool) returns (steps: seq<Step>)
    requires Leads(DRAINED, rest, t, polite)
    ensures Leads(START, steps, t, polite)
  {
    hide Run, NoReuseTaken, WaitsForDone, Leads;
    var r3 := DRAIN_BROKEN;
    var r4 := r3.(pc := Finishing(LONE_CELL, CellFinally(true), First));
    var r5 := r4.(pc := Finishing(LONE_CELL, CellFinally(true), Second), g := r3.g.(finishing := None));
    var r6 := r5.(pc := Finishing(LONE_CELL, CellFinally(true), Third), g := r5.g.(target := None));
    assert AdvanceStep(r6) == DRAINED;
    steps := [Advance] + rest;
    Prepend(r6, Advance, rest, t, polite);
    Prepend(r5, Advance, steps, t, polite); steps := [Advance] + steps;
    Prepend(r4, Advance, steps, t, polite); steps := [Advance] + steps;
    Prepend(r3, Advance, steps, t, polite); steps := [Advance] + steps;
    steps := ReachDrainBroken(steps, t, polite);
  }

  /** One interrupt during the output drain, and a host that does not wait, expose a reused id. */
  lemma ImpatientHostIsExposed()
    ensures exists steps, t :: Leads(START, steps, t, false) && TakesReusedId(t, Advance)
  {
    var t := Next(DRAINED, Accept("a", Cell));
    assert Finished(0) in t.hist && t.g.inflight == {"a"};
    Prepend(DRAINED, Accept("a", Cell), [], t, false);
    var steps := ReachDrained([Accept("a", Cell)] + [], t, false);
  }

  lemma Go(s: State, step: Step, rest: seq<Step>, t: State)
    requires Enabled(s, step) && Run(Next(s, step), rest) == Some(t)
    ensures Run(s, [step] + rest) == Some(t)
  {
    assert ([step] + rest)[1..] == rest;
  }

  lemma {:induction false} RunConcat(s: State, first: seq<Step>, second: seq<Step>, mid: State, t: State)
    requires Run(s, first) == Some(mid) && Run(mid, second) == Some(t)
    ensures Run(s, first + second) == Some(t)
    decreases |first|
  {
    if first == [] {
      assert first + second == second;
    } else {
      RunConcat(Next(s, first[0]), first[1..], second, mid, t);
      assert (first + second)[1..] == first[1..] + second;
    }
  }

  /** What the backstop does with a request that holds no slot: it consumes, drops and replies. */
  function BackstopOver(s: State): State
    requires !s.pc.Idle?
  {
    var req := s.pc.req;
    var g := DropRequest(if req.rid in s.g.inflight then ConsumePending(s.g, req.rid).0 else s.g, req.rid);
    var h := if Finished(req.serial) in s.hist then s.hist else s.hist + [Finished(req.serial)];
    s.(g := g, pc := Idle, hist := h + [Done(req.serial)])
  }

  lemma RunBackstop(s: State) returns (steps: seq<Step>)
    requires s.pc.Closing? && s.pc.clause.BackstopClause? && NoSlot(s.g)
    ensures Run(s, steps) == Some(BackstopOver(s))
  {
    var c1 := AdvanceStep(s);
    var c2 := AdvanceStep(c1);
    var c3 := AdvanceStep(c2);
    var c4 := AdvanceStep(c3);
    var t := AdvanceStep(c4);
    steps := [];
    Go(c4, Advance, steps, t); steps := [Advance] + steps;
    Go(c3, Advance, steps, t); steps := [Advance] + steps;
    Go(c2, Advance, steps, t); steps := [Advance] + steps;
    Go(c1, Advance, steps, t); steps := [Advance] + steps;
    Go(s, Advance, steps, t); steps := [Advance] + steps;
  }

  /** A queued request up to its first step. */
  function Activated(s: State): State
    requires s.queue != []
  {
    var req := s.queue[0];
    var (g, pending) := ConsumePending(s.g.(interrupted := false, rid := Some(req.rid), task := Live), req.rid);
    State(g.(interrupted := pending), Running(req), s.queue[1..], s.next,
          if pending then s.hist + [Hit(req.serial)] else s.hist)
  }

  lemma RunActivation(s: State) returns (steps: seq<Step>)
    requires s.pc.Idle? && s.queue != [] && NoSlot(s.g)
    ensures Run(s, steps) == Some(Activated(s))
  {
    var c1 := AdvanceStep(s);
    var c2 := AdvanceStep(c1);
    var c3 := AdvanceStep(c2);
    var t := AdvanceStep(c3);
    steps := [];
    Go(c3, Advance, steps, t); steps := [Advance] + steps;
    Go(c2, Advance, steps, t); steps := [Advance] + steps;
    Go(c1, Advance, steps, t); steps := [Advance] + steps;
    Go(s, Advance, steps, t); steps := [Advance] + steps;
  }

  /**
   * The id of the lone cell used again, by a request that its backstop then forgets, and one more
   * request behind it.
   */
  const FORGOTTEN: Request := Request("a", 1, Cell)
  const BYSTANDER: Request := Request("b", 2, Cell)
  const ONLY_B: Globals := QUIET.(inflight := {"b"})

  const FORGETTING: State :=
    State(ONLY_B, Idle, [FORGOTTEN, BYSTANDER], 3, DRAINED.hist + [Accepted(1)] + [Accepted(2)] + [Done(0)])

  lemma ReachForgetting() returns (steps: seq<Step>)
    ensures Run(DRAINED, steps) == Some(FORGETTING)
  {
    var s1 := Next(DRAINED, Accept("a", Cell));
    var s2 := Next(s1, Accept("b", Cell));
    assert s1.g.inflight == {"a"} && s2.g.inflight == {"a", "b"};
    assert s1.queue == [FORGOTTEN] && s2.queue == [FORGOTTEN, BYSTANDER];
    assert Finished(0) in s2.hist;
    assert s2.g.inflight - {"a"} == {"b"};
    assert BackstopOver(s2) == FORGETTING;
    steps := RunBackstop(s2);
    Go(s1, Accept("b", Cell), steps, FORGETTING); steps := [Accept("b", Cell)] + steps;
    Go(DRAINED, Accept("a", Cell), steps, FORGETTING); steps := [Accept("a", Cell)] + steps;
  }

  /** The forgotten request, addressed by an interrupt while it compiles, fails to compile. */
  const MISPARKED: State :=
    State(ONLY_B.(parkedAny := true), Closing(FORGOTTEN, BackstopClause), [BYSTANDER], 3,
          FORGETTING.hist + [Resolved(1)])

  lemma ReachMisparked() returns (steps: seq<Step>)
    ensures Run(FORGETTING, steps) == Some(MISPARKED)
  {
    var s1 := AdvanceStep(FORGETTING);
    var s2 := Next(s1, Interrupt(None));
    assert Finished(1) !in s1.hist;
    assert Open(s1) == [FORGOTTEN, BYSTANDER];
    assert Next(s2, StartFails) == MISPARKED;
    Go(s2, StartFails, [], MISPARKED);
    Go(s1, Interrupt(None), [StartFails] + [], MISPARKED);
    steps := [Interrupt(None)] + ([StartFails] + []);
    Go(FORGETTING, Advance, steps, MISPARKED); steps := [Advance] + steps;
  }

  /** The bystander, cancelled before its first step by the interrupt that was meant for the forgotten request. */
  const BYSTANDER_HIT: State :=
    State(ONLY_B.(task := Live, rid := Some("b"), interrupted := true), Running(BYSTANDER), [], 3,
          MISPARKED.hist + [Finished(1)] + [Done(1)] + [Hit(2)])

  lemma ReachBystander() returns (steps: seq<Step>)
    ensures Run(MISPARKED, steps) == Some(BYSTANDER_HIT)
  {
    var s1 := BackstopOver(MISPARKED);
    assert Finished(1) !in MISPARKED.hist && ONLY_B.inflight - {"a"} == {"b"};
    assert s1 == State(ONLY_B.(parkedAny := true), Idle, [BYSTANDER], 3, MISPARKED.hist + [Finished(1)] + [Done(1)]);
    assert Activated(s1) == BYSTANDER_HIT;
    var first := RunBackstop(MISPARKED);
    var second := RunActivation(s1);
    RunConcat(MISPARKED, first, second, s1, BYSTANDER_HIT);
    steps := first + second;
  }

  lemma ReachBystanderHit() returns (steps: seq<Step>)
    ensures Run(START, steps) == Some(BYSTANDER_HIT)
  {
    var first := ReachDrained([], DRAINED, false);
    var second := ReachForgetting();
    var third := ReachMisparked();
    var fourth := ReachBystander();
    RunConcat(FORGETTING, third, fourth, MISPARKED, BYSTANDER_HIT);
    RunConcat(DRAINED, second, third + fourth, FORGETTING, BYSTANDER_HIT);
    RunConcat(START, first, second + (third + fourth), DRAINED, BYSTANDER_HIT);
    steps := first + (second + (third + fourth));
  }

  /** Once a reused id was taken, an interrupt can hit a request that no message ever addressed. */
  lemma ReusedIdMisdirectsAnInterrupt()
    ensures exists steps, t :: Run(START, steps) == Some(t) && Hit(2) in t.hist && Resolved(2) !in t.hist
  {
    var steps := ReachBystanderHit();
    assert Hit(2) in BYSTANDER_HIT.hist && Resolved(2) !in BYSTANDER_HIT.hist;
  }
}
