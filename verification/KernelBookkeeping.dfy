/**
 * The interrupt bookkeeping of the kernel REPL: the module globals that the reader
 * thread, the main thread and the SIGINT handler share, and the critical sections
 * that update them.
 */
module KernelBookkeeping {
  import opened Wrappers

  type Rid = string

  /** The active task slot: empty, a task still to finish, or a finished task. */
  datatype Task = NoTask | Live | Complete

  /** What the handler does with a SIGINT. */
  datatype Delivery =
    | Dropped              // nothing is targeted
    | Recorded             // noted for the finishing phase
    | RaisedInFinishing    // KeyboardInterrupt into the post-run work
    | HitActive            // the active task is cancelled or raised into

  datatype Globals = Globals(
    task: Task, rid: Option<Rid>, interrupted: bool,
    inflight: set<Rid>, parkedIds: set<Rid>, parkedAny: bool,
    target: Option<Rid>, finishing: Option<Rid>, handoff: bool)

  const QUIET: Globals := Globals(NoTask, None, false, {}, {}, false, None, None, false)

  function HandleSigint(g: Globals): (Globals, Delivery) {
    if g.task != Live || g.rid != g.target then
      if g.target.Some? && g.target == g.rid then (g.(handoff := true), Recorded)
      else if g.target.Some? && g.target == g.finishing then (g, RaisedInFinishing)
      else (g, Dropped)
    else
      (g.(interrupted := true), HitActive)
  }

  /** The locked part of an interrupt request; the second component says whether a SIGINT is sent. */
  function RequestInterrupt(g: Globals, msg: Option<Rid>): (Globals, bool) {
    if g.rid.Some? && (msg.None? || msg == g.rid) then (g.(target := g.rid), true)
    else if g.finishing.Some? && (msg.None? || msg == g.finishing) then (g.(target := g.finishing), true)
    else if msg.Some? then
      (if msg.value in g.inflight then g.(parkedIds := g.parkedIds + {msg.value}) else g, false)
    else (if g.inflight != {} then g.(parkedAny := true) else g, false)
  }

  function ConsumePending(g: Globals, rid: Rid): (Globals, bool) {
    (g.(parkedAny := false, parkedIds := g.parkedIds - {rid}), g.parkedAny || rid in g.parkedIds)
  }

  /** The three observable stages of finishing a request: the handler may run between them. */
  function ClearFinishing(g: Globals, rid: Rid): Globals {
    if g.finishing == Some(rid) then g.(finishing := None, handoff := false) else g
  }

  function ClearTarget(g: Globals, rid: Rid): Globals {
    if g.target == Some(rid) then g.(target := None) else g
  }

  function DropRequest(g: Globals, rid: Rid): Globals {
    var inflight := g.inflight - {rid};
    g.(inflight := inflight, parkedIds := g.parkedIds - {rid}, parkedAny := g.parkedAny && inflight != {})
  }

  function FinishLocked(g: Globals, rid: Rid): Globals {
    DropRequest(ClearTarget(ClearFinishing(g, rid), rid), rid)
  }

  /** The globals as mutable state, with the code's own update order. */
  class Bookkeeping {
    var task: Task
    var rid: Option<Rid>
    var interrupted: bool
    var inflight: set<Rid>
    var parkedIds: set<Rid>
    var parkedAny: bool
    var target: Option<Rid>
    var finishing: Option<Rid>
    var handoff: bool

    function View(): Globals
      reads this
    {
      Globals(task, rid, interrupted, inflight, parkedIds, parkedAny, target, finishing, handoff)
    }

    constructor ()
      ensures View() == QUIET
    {
      task, rid, interrupted := NoTask, None, false;
      inflight, parkedIds, parkedAny := {}, {}, false;
      target, finishing, handoff := None, None, false;
    }

    method Handler() returns (d: Delivery)
      modifies this
      ensures (View(), d) == HandleSigint(old(View()))
      ensures d == HitActive <==> task == Live && rid == target
      ensures d == Recorded <==> task != Live && target.Some? && target == rid
      ensures d == RaisedInFinishing <==> target.Some? && target != rid && target == finishing
      ensures interrupted == (old(interrupted) || d == HitActive) && handoff == (old(handoff) || d == Recorded)
      ensures unchanged(`task, `rid, `inflight, `parkedIds, `parkedAny, `target, `finishing)
    {
      if task != Live || rid != target {
        if target.Some? && target == rid {
          handoff := true;
          return Recorded;
        }
        if target.Some? && target == finishing {
          return RaisedInFinishing;
        }
        return Dropped;
      }
      interrupted := true;
      return HitActive;
    }

    method Request(msg: Option<Rid>) returns (signal: bool)
      modifies this
      ensures (View(), signal) == RequestInterrupt(old(View()), msg)
      ensures
        var running := rid.Some? && (msg.None? || msg == rid);
        var isFinishing := finishing.Some? && (msg.None? || msg == finishing);
        && (signal <==> running || isFinishing)
        && target == (if running then rid else if isFinishing then finishing else old(target))
      ensures parkedIds == old(parkedIds) + if !signal && msg.Some? && msg.value in inflight then {msg.value} else {}
      ensures parkedAny == (old(parkedAny) || (!signal && msg.None? && inflight != {}))
      ensures unchanged(`task, `rid, `interrupted, `inflight, `finishing, `handoff)
    {
      signal := false;
      if rid.Some? && (msg.None? || msg == rid) {
        target := rid;
      } else if finishing.Some? && (msg.None? || msg == finishing) {
        target := finishing;
      } else if msg.Some? {
        if msg.value in inflight {
          parkedIds := parkedIds + {msg.value};
        }
        return;
      } else if inflight != {} {
        parkedAny := true;
        return;
      } else {
        return;
      }
      signal := true;
    }

    method Consume(r: Rid) returns (pending: bool)
      modifies this
      ensures (View(), pending) == ConsumePending(old(View()), r)
      ensures pending <==> old(parkedAny) || r in old(parkedIds)
      ensures !parkedAny && parkedIds == old(parkedIds) - {r}
      ensures unchanged(`task, `rid, `interrupted, `inflight, `target, `finishing, `handoff)
    {
      pending := parkedAny || r in parkedIds;
      parkedAny := false;
      parkedIds := parkedIds - {r};
    }

    method ConsumeHandoff() returns (pending: bool)
      modifies this
      ensures pending == old(handoff) && View() == old(View()).(handoff := false)
    {
      pending := handoff;
      handoff := false;
    }

    /** Registers a request unless its id is still in flight. */
    method Accept(r: Rid) returns (duplicate: bool)
      modifies this
      ensures duplicate <==> r in old(inflight)
      ensures View() == old(View()).(inflight := old(inflight) + {r})
    {
      duplicate := r in inflight;
      if duplicate {
        assert inflight == inflight + {r};
      } else {
        inflight := inflight + {r};
      }
    }

    method Finish(r: Rid)
      modifies this
      ensures View() == FinishLocked(old(View()), r)
      ensures inflight == old(inflight) - {r} && parkedIds == old(parkedIds) - {r}
      ensures parkedAny == (old(parkedAny) && inflight != {})
      ensures target == if old(target) == Some(r) then None else old(target)
      ensures finishing == if old(finishing) == Some(r) then None else old(finishing)
      ensures handoff == (old(handoff) && old(finishing) != Some(r))
      ensures unchanged(`task, `rid, `interrupted)
    {
      if finishing == Some(r) {
        finishing := None;
        handoff := false;
      }
      if target == Some(r) {
        target := None;
      }
      inflight := inflight - {r};
      parkedIds := parkedIds - {r};
      if inflight == {} {
        parkedAny := false;
      }
    }
  }
}
