/**
 * The handles of a Windows child process, shared by any number of threads. The kernel's
 * calls state what the operating system demands: no use of a closed handle, and no close
 * of a handle that a blocking wait still uses.
 */
module JobHandles {
  import opened Wrappers

  type Handle = nat

  class Kernel {
    /** The handles this process owns now, how often each was closed, and the blocking waits in flight. */
    ghost var open: set<Handle>
    ghost var closes: multiset<Handle>
    ghost var waits: multiset<Handle>

    ghost constructor (handles: set<Handle>)
      ensures open == handles && closes == multiset{} && waits == multiset{}
    {
      open, closes, waits := handles, multiset{}, multiset{};
    }

    method CloseHandle(h: Handle)
      requires h in open && h !in waits
      modifies this
      ensures open == old(open) - {h} && closes == old(closes) + multiset{h} && waits == old(waits)
    {
      open, closes := open - {h}, closes + multiset{h};
    }

    /** Any call that only needs the handle to be open: a wait with a zero timeout, a resume, a terminate. */
    method Use(h: Handle)
      requires h in open
    {
    }

    method EnterWait(h: Handle)
      requires h in open
      modifies this
      ensures waits == old(waits) + multiset{h} && open == old(open) && closes == old(closes)
    {
      waits := waits + multiset{h};
    }

    method LeaveWait(h: Handle)
      requires h in open && h in waits
      modifies this
      ensures waits == old(waits) - multiset{h} && open == old(open) && closes == old(closes)
    {
      waits := waits - multiset{h};
    }
  }

  /** What WaitForSingleObject answered; Interrupted if an exception ended the call. */
  datatype Answer = Signaled | TimedOut | Failed | Interrupted

  /** What GetExitCodeProcess answered. */
  datatype ExitQuery = Code(code: int) | QueryFailed

  datatype Outcome = Exit(code: int) | Running | Expired | OsError

  datatype Entry = Already(code: int) | HandleGone | Registered(h: Handle)

  class JobProcess {
    const kernel: Kernel
    var hprocess: Option<Handle>
    var hthread: Option<Handle>
    var exitCode: Option<int>
    var waiters: nat
    var closeRequested: bool
    /** The two handles the process was created with. */
    ghost const process: Handle
    ghost const thread: Handle

    ghost predicate Valid()
      reads this, kernel
    {
      && process != thread
      && (hprocess.Some? ==> hprocess.value == process) && (hprocess.Some? <==> process in kernel.open)
      && (hthread.Some? ==> hthread.value == thread) && (hthread.Some? <==> thread in kernel.open)
      && kernel.closes[process] == (if hprocess.Some? then 0 else 1)
      && kernel.closes[thread] == (if hthread.Some? then 0 else 1)
      && kernel.waits[process] == waiters && kernel.waits[thread] == 0
      && (waiters > 0 ==> hprocess.Some?)
      && (closeRequested && waiters == 0 <==> hprocess.None?)
    }

    /** A cached exit code never changes. */
    twostate predicate Sticky()
      reads this
    {
      old(exitCode).Some? ==> exitCode == old(exitCode)
    }

    constructor (kernel: Kernel, hprocess: Handle, hthread: Handle)
      requires hprocess != hthread && {hprocess, hthread} <= kernel.open
      requires kernel.closes == multiset{} && kernel.waits == multiset{}
      ensures Valid() && this.kernel == kernel && waiters == 0 && exitCode.None? && !closeRequested
      ensures process == hprocess && thread == hthread
    {
      this.kernel := kernel;
      this.hprocess, this.hthread := Some(hprocess), Some(hthread);
      process, thread := hprocess, hthread;
      exitCode, waiters, closeRequested := None, 0, false;
    }

    method Resume(resumed: bool) returns (ok: bool)
      requires Valid()
      modifies this, kernel
      ensures Valid() && Sticky() && unchanged(`waiters, `closeRequested, `exitCode, `hprocess)
      ensures ok <==> old(hthread).Some? && resumed
      ensures hthread == if ok then None else old(hthread)
    {
      if hthread.None? {
        return false;
      }
      kernel.Use(hthread.value);
      if !resumed {
        return false;
      }
      kernel.CloseHandle(hthread.value);
      hthread := None;
      return true;
    }

    method CloseProcessLocked()
      requires process != thread && (hprocess.Some? ==> hprocess.value == process)
      requires (hprocess.Some? <==> process in kernel.open) && kernel.waits[process] == waiters
      modifies `hprocess, kernel
      ensures hprocess == if closeRequested && waiters == 0 then None else old(hprocess)
      ensures kernel.open == old(kernel.open) - (if hprocess != old(hprocess) then {process} else {})
      ensures kernel.closes ==
                old(kernel.closes) + (if hprocess != old(hprocess) then multiset{process} else multiset{})
      ensures kernel.waits == old(kernel.waits)
    {
      if closeRequested && waiters == 0 && hprocess.Some? {
        kernel.CloseHandle(hprocess.value);
        hprocess := None;
      }
    }

    /** Idempotent: the handle closes now, or when the last blocking wait returns. */
    method Close()
      requires Valid()
      modifies this, kernel
      ensures Valid() && Sticky() && unchanged(`waiters, `exitCode, `hthread) && closeRequested
      ensures waiters == 0 ==> hprocess.None?
      ensures waiters > 0 ==> hprocess == old(hprocess)
    {
      closeRequested := true;
      CloseProcessLocked();
    }

    /** After a signaled wait; a failed query caches nothing, so that a retry is possible. */
    method CacheExitCodeLocked(query: ExitQuery) returns (ok: bool)
      requires Valid() && hprocess.Some? && exitCode.None?
      modifies this, kernel
      ensures Valid() && unchanged(`waiters, `closeRequested, `hprocess)
      ensures kernel.waits == old(kernel.waits) && kernel.open - {thread} == old(kernel.open) - {thread}
      ensures ok <==> query.Code?
      ensures if ok then exitCode == Some(query.code) && hthread.None? else unchanged(`exitCode, `hthread)
    {
      kernel.Use(hprocess.value);
      if query.QueryFailed? {
        return false;
      }
      exitCode := Some(query.code);
      if hthread.Some? {
        kernel.CloseHandle(hthread.value);
        hthread := None;
      }
      return true;
    }

    method Poll(answer: Answer, query: ExitQuery) returns (r: Outcome)
      requires Valid() && !answer.Interrupted?
      modifies this, kernel
      ensures Valid() && Sticky() && unchanged(`waiters, `closeRequested, `hprocess)
      ensures old(exitCode).Some? ==> r == Exit(old(exitCode).value)
      ensures exitCode == if r.Exit? then Some(r.code) else None
      ensures old(exitCode).None? && hprocess.None? ==> r.OsError?
      ensures old(exitCode).None? && hprocess.Some? ==>
                r == match answer
                     case Signaled => (if query.Code? then Exit(query.code) else OsError)
                     case TimedOut => Running
                     case _ => OsError
    {
      if exitCode.Some? {
        return Exit(exitCode.value);
      }
      if hprocess.None? {
        return OsError;
      }
      kernel.Use(hprocess.value);
      if answer.TimedOut? {
        return Running;
      }
      if !answer.Signaled? {
        return OsError;
      }
      var ok := CacheExitCodeLocked(query);
      if !ok {
        return OsError;
      }
      return Exit(exitCode.value);
    }

    /** wait(), first critical section: register before blocking. */
    method WaitEnter() returns (e: Entry)
      requires Valid()
      modifies this, kernel
      ensures Valid() && Sticky() && unchanged(`closeRequested, `exitCode, `hprocess, `hthread)
      ensures e == if exitCode.Some? then Already(exitCode.value)
                   else if hprocess.None? then HandleGone else Registered(process)
      ensures waiters == old(waiters) + if e.Registered? then 1 else 0
    {
      if exitCode.Some? {
        return Already(exitCode.value);
      }
      if hprocess.None? {
        return HandleGone;
      }
      waiters := waiters + 1;
      kernel.EnterWait(hprocess.value);
      return Registered(hprocess.value);
    }

    /** wait(), second critical section: the blocking call came back; cache, then deregister. */
    method WaitLeave(h: Handle, answer: Answer, query: ExitQuery) returns (queryOk: bool)
      requires Valid() && waiters > 0 && h == process
      modifies this, kernel
      ensures Valid() && Sticky() && unchanged(`closeRequested)
      ensures waiters == old(waiters) - 1
      ensures closeRequested && waiters == 0 ==> hprocess.None?
      ensures queryOk <==> !(answer.Signaled? && old(exitCode).None? && query.QueryFailed?)
      ensures exitCode ==
                if old(exitCode).None? && answer.Signaled? && query.Code? then Some(query.code) else old(exitCode)
    {
      queryOk := true;
      if answer.Signaled? && exitCode.None? {
        queryOk := CacheExitCodeLocked(query);
      }
      kernel.LeaveWait(h);
      waiters := waiters - 1;
      CloseProcessLocked();
    }

    /** wait(), third critical section: a code cached meanwhile wins. */
    method WaitResult(answer: Answer) returns (r: Outcome)
      ensures r == if exitCode.Some? then Exit(exitCode.value) else if answer.TimedOut? then Expired else OsError
    {
      if exitCode.Some? {
        return Exit(exitCode.value);
      }
      return if answer.TimedOut? then Expired else OsError;
    }

    /** kill(), its critical section; true if the caller must fall back to poll(). */
    method KillLocked(terminated: bool) returns (fallback: bool)
      requires Valid()
      ensures fallback <==> exitCode.None? && hprocess.Some? && !terminated
    {
      if exitCode.Some? || hprocess.None? {
        return false;
      }
      kernel.Use(hprocess.value);
      return !terminated;
    }
  }

  /** One critical section of some thread, with the operating system's answers. */
  datatype Action =
    | DoResume(resumed: bool)
    | DoClose
    | DoPoll(answer: Answer, query: ExitQuery)
    | DoWaitEnter(thread: nat)
    | DoWaitLeave(thread: nat, answer: Answer, query: ExitQuery)
    | DoKill(terminated: bool)

  /**
   * Any number of threads, in any order, with any answers: every kernel call meets its
   * precondition, each handle is closed at most once, the process handle is closed as
   * soon as a close was requested and no wait is in flight, and a cached code stays.
   */
  method RunSchedule(p: JobProcess, schedule: seq<Action>) returns (blocked: set<nat>)
    requires p.Valid() && p.waiters == 0
    modifies p, p.kernel
    ensures p.Valid() && p.waiters == |blocked| && p.Sticky()
    ensures p.kernel.closes[p.process] <= 1 && p.kernel.closes[p.thread] <= 1
    ensures p.kernel.closes[p.process] == 1 <==> p.closeRequested && blocked == {}
    ensures p.closeRequested <==> old(p.closeRequested) || DoClose in schedule
  {
    blocked := {};
    for k := 0 to |schedule|
      invariant p.Valid() && p.waiters == |blocked| && p.Sticky()
      invariant p.closeRequested <==> old(p.closeRequested) || DoClose in schedule[..k]
    {
      assert schedule[..k + 1] == schedule[..k] + [schedule[k]];
      match schedule[k] {
        case DoResume(resumed) =>
          var ok := p.Resume(resumed);
        case DoClose =>
          p.Close();
        case DoPoll(answer, query) =>
          if !answer.Interrupted? {
            var r := p.Poll(answer, query);
          }
        case DoWaitEnter(thread) =>
          if thread !in blocked {
            var e := p.WaitEnter();
            if e.Registered? {
              blocked := blocked + {thread};
            }
          }
        case DoWaitLeave(thread, answer, query) =>
          if thread in blocked {
            blocked := blocked - {thread};
            var queryOk := p.WaitLeave(p.hprocess.value, answer, query);
            var r := p.WaitResult(answer);
          }
        case DoKill(terminated) =>
          var fallback := p.KillLocked(terminated);
      }
    }
    assert schedule[..|schedule|] == schedule;
  }
}
