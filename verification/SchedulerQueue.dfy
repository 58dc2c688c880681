/**
 The executor's queue, exactly: which closure each step schedules, and that a scheduled
 closure stays until it is run.
 */
module SchedulerQueue {
  import opened SchedulerState
  import opened Wrappers
  import opened SchedulerSteps
  import opened SchedulerProgress

  // What a module that ends passes to the coroutine that required it.
  function ModuleValues(out: Outcome): seq<Value>
    requires !out.Yielded?
  {
    match out
    case Returned(values) => if values == [] || values[0] == NIL then [TRUE] else values
    case Raised(message) => [NIL, message]
  }

  predicate Open(s: State) {
    !s.shuttingDown && !s.interrupted
  }

  function When(c: bool, x: Closure): Option<Closure> {
    if c then Some(x) else None
  }

  // The closure that a step schedules: a completion is gated on the shutdown flag alone, new
  // work on both flags.
  function Scheduled(s: State, step: Step): Option<Closure> {
    match step
    case PostTask(kind) => When(Open(s), Task(kind, s.hist.nextId))
    case PostResume(h, args) => When(!s.shuttingDown, Resume(h, args))
    case PostRequireRun(h) => When(Open(s), RequireRun(h))
    case PostLoadFileRun(h) => When(Open(s), LoadFileRun(h))
    case PostClearInterrupt => Some(ClearFlag)
    case PostInterrupt => When(Open(s), InterruptPass)
    case ScriptPark(sleep) => When(sleep, SleepExpiry(s.timers.next))
    case ScriptSetTimeout(fn) => Some(TimeoutExpiry(s.timers.next, fn))
    case ScriptEnd(out) => OwedAtEnd(s, out)
    case RunHandler => OwedByHandler(s)
    case RunClosure(t, ch) => if t in s.exec.queue then OwedByClosure(s, s.exec.queue[t], ch) else None
    case _ => None
  }

  // The resume that a module owes its caller when its body ends at once.
  function OwedAtEnd(s: State, out: Outcome): Option<Closure> {
    if s.ctl != [] && !out.Yielded? then
      match s.ctl[|s.ctl| - 1]
      case Frame(_, AfterRequire(caller)) => When(!s.shuttingDown, Resume(caller, ModuleValues(out)))
      case _ => None
    else None
  }

  // The same for a body that was waited for.
  function OwedByHandler(s: State): Option<Closure> {
    if s.ctl != [] then
      match s.ctl[|s.ctl| - 1]
      case Deliver(RequireDone(_, caller), Ok(values)) =>
        When(!s.shuttingDown, Resume(caller, ModuleValues(Returned(values))))
      case Deliver(RequireDone(_, caller), Failed(message)) => When(!s.shuttingDown, Resume(caller, [NIL, message]))
      case Deliver(RequireDone(_, caller), Interrupted(_)) =>
        When(!s.shuttingDown, Resume(caller, [NIL, INTERRUPTED_TEXT]))
      case Deliver(RequireDone(_, caller), _) => When(!s.shuttingDown, Resume(caller, [NIL, SHUTDOWN_TEXT]))
      case _ => None
    else None
  }

  function OwedByClosure(s: State, c: Closure, ch: Choice): Option<Closure> {
    match c
    case RequireRun(h) => When(Open(s) && !ch.loads, Resume(h, [NIL, if ch.args == [] then 0 else ch.args[0]]))
    case LoadFileRun(h) => When(Open(s), Resume(h, ch.args))
    case SleepExpiry(h) => When(h in s.timers.active && s.paused, SleepExpiry(h))
    case _ => None
  }

  predicate Queues(exec: Exec, c: Option<Closure>, exec1: Exec) {
    exec1 == if c.Some? then Exec(exec.queue[exec.nextTicket := c.value], exec.nextTicket + 1) else exec
  }

  // The closure that is run leaves the queue.
  function Left(s: State, step: Step): Exec {
    if step.RunClosure? then s.exec.(queue := s.exec.queue - {step.t}) else s.exec
  }

  // --- operations that schedule nothing ---

  lemma ReleaseExec(s: State, co: Co)
    ensures Release(s, co).exec == s.exec && Release(Purge(s, co), co).exec == s.exec
  {
    hide SetSt, PoolRelease, HandlesOf;
  }

  lemma EnterExec(s: State, spare: Slot, after: After)
    ensures Enter(s, spare, after).exec == s.exec && LoadOnly(s, spare).exec == s.exec
  {
    hide SetSt, LuaAcquire, PoolAcquire, PoolRelease;
  }

  lemma RecycleExec(s: State, co: Co, out: Outcome)
    requires !out.Yielded?
    ensures Recycle(s, co, out).exec == s.exec
  {
    var s1 := Purge(s, co);
    ReleaseExec(s, co);
    ReleaseExec(s1.(completions := s1.completions - {co}), co);
    hide Release, HandlesOf;
  }

  lemma ReturnExec(s: State, co: Co, id: HandlerId, out: Outcome)
    ensures TaskReturned(s, co, id, out).exec == s.exec
    ensures ResumeReturned(s, co, out).exec == CallReturned(s, co, id, out).exec == s.exec
  {
    hide Recycle, Release, HandlesOf;
    if !out.Yielded? {
      RecycleExec(s, co, out);
      RecycleExec(PutHandler(s, co, TaskPromise(id)), co, out);
      ReleaseExec(s, co);
    }
  }

  // --- operations that schedule ---

  lemma PushResumeExec(s: State, h: Handle, args: seq<Value>)
    ensures Queues(s.exec, When(!s.shuttingDown, Resume(h, args)), PushResume(s, h, args).exec)
  {}

  lemma RequireExec(s: State, co: Co, caller: Handle, out: Outcome)
    ensures Queues(s.exec, if out.Yielded? then None else When(!s.shuttingDown, Resume(caller, ModuleValues(out))),
                   RequireReturned(s, co, caller, out).exec)
  {
    if !out.Yielded? {
      PushResumeExec(s, caller, ModuleValues(out));
      ReleaseExec(PushResume(s, caller, ModuleValues(out)), co);
    }
    hide PushResume, Release;
  }

  lemma EndExec(s: State, co: Co, after: After, out: Outcome)
    requires s.ctl != [] && s.ctl[|s.ctl| - 1] == Frame(co, after)
    ensures Queues(s.exec, OwedAtEnd(s, out), EndScript(s, out).exec)
  {
    var s0 := PopFrame(s, out);
    assert s0.exec == s.exec && s0.shuttingDown == s.shuttingDown by { hide SetSt; }
    EndIs(s, out);
    hide EndScript, TaskReturned, ResumeReturned, CallReturned, RequireReturned, PopFrame, ModuleValues;
    match after {
      case AfterTask(id) => ReturnExec(s0, co, id, out);
      case AfterCall(id) => ReturnExec(s0, co, id, out);
      case AfterRequire(caller) => RequireExec(s0, co, caller, out);
      case _ => ReturnExec(s0, co, 0, out);
    }
  }

  lemma HandlerExec(s: State)
    requires s.ctl != [] && s.ctl[|s.ctl| - 1].Deliver?
    ensures Queues(s.exec, OwedByHandler(s), DeliverTop(s).exec)
  {
    var Deliver(hd, r) := s.ctl[|s.ctl| - 1];
    var s1 := Settle(s.(ctl := s.ctl[..|s.ctl| - 1]), hd.id, r);
    if hd.RequireDone? { PushResumeExec(s1, hd.caller, RequireArgs(r)); }
    hide PushResume, Queues;
  }

  lemma DoResumeExec(s: State, h: Handle, args: seq<Value>)
    ensures DoResume(s, h, args).exec == s.exec
  {
    if h in s.pending && !SuspendedAt(s.lua, s.pending[h]) {
      ReleaseExec(Record(s.(pins := s.pins - {h}, pending := s.pending - {h}), NotResumable(h)), s.pending[h]);
    }
    hide Purge, Release, SetSt;
  }

  lemma TaskExec(s: State, t: nat, spare: Slot, loads: bool)
    requires t in s.exec.queue && s.exec.queue[t].Task?
    ensures RunTask(s, t, spare, loads).exec == Dequeue(s, t).exec
  {
    EnterExec(Dequeue(s, t), spare, AfterTask(s.exec.queue[t].id));
    hide Enter, LoadOnly;
  }

  lemma GatedExec(s: State, caller: Handle, spare: Slot, loads: bool, message: Value, args: seq<Value>)
    ensures Queues(s.exec, When(Open(s) && !loads, Resume(caller, [NIL, message])),
                   RunRequire(s, caller, spare, loads, message).exec)
    ensures Queues(s.exec, When(Open(s), Resume(caller, args)), RunLoadFile(s, caller, spare, args).exec)
  {
    EnterExec(s, spare, AfterRequire(caller));
    LoadOnlyFlags(s, spare);
    PushResumeExec(LoadOnly(s, spare), caller, [NIL, message]);
    PushResumeExec(LoadOnly(s, spare), caller, args);
    hide Enter, LoadOnly, PushResume;
  }

  lemma LoadOnlyFlags(s: State, spare: Slot)
    ensures LoadOnly(s, spare).shuttingDown == s.shuttingDown
  {
    hide SetSt, LuaAcquire, PoolAcquire, PoolRelease;
  }

  lemma SleepExec(s: State, h: Handle)
    ensures Queues(s.exec, When(h in s.timers.active && s.paused, SleepExpiry(h)), RunSleepExpiry(s, h).exec)
  {
    DoResumeExec(s.(timers := s.timers.(active := s.timers.active - {h})), h, []);
    hide DoResume;
  }

  lemma OtherClosureExec(s: State, a: seq<Co>, b: seq<Co>, h: Handle, fn: Ref, spare: Slot)
    ensures RunTimeoutExpiry(s, h, fn, spare).exec == s.exec
    ensures Enumerates(a, s.pool.active.Keys) && Enumerates(b, s.completions.Keys) ==>
              RunInterruptPass(s, a, b).exec == s.exec
  {
    hide SetSt, LuaAcquire, PoolAcquire, Unref, CancelAllLua, ResetAll, PoolReleaseAll, InterruptedItems;
    hide PlacesAfterSwap;
  }

  lemma ClosureExec(s: State, t: nat, ch: Choice)
    requires Enabled(s, RunClosure(t, ch))
    ensures Queues(Dequeue(s, t).exec, OwedByClosure(s, s.exec.queue[t], ch), ApplyClosure(s, t, ch).exec)
  {
    var s1, message := Dequeue(s, t), if ch.args == [] then 0 else ch.args[0];
    hide RunTask, DoResume, RunRequire, RunLoadFile, RunInterruptPass, RunSleepExpiry, RunTimeoutExpiry;
    match s.exec.queue[t] {
      case Task(_, _) => TaskExec(s, t, ch.spare, ch.loads);
      case Resume(h, args) => DoResumeExec(s1, h, args);
      case RequireRun(h) => GatedExec(s1, h, ch.spare, ch.loads, message, []);
      case LoadFileRun(h) => GatedExec(s1, h, ch.spare, ch.loads, 0, ch.args);
      case InterruptPass => OtherClosureExec(s1, ch.coOrder, ch.handlerOrder, 0, 0, ch.spare);
      case ClearFlag =>
      case SleepExpiry(h) => SleepExec(s1, h);
      case TimeoutExpiry(h, fn) => OtherClosureExec(s1, [], [], h, fn, ch.spare);
    }
  }

  // --- every step ---

  lemma PostedExec(s: State, step: Step)
    requires Enabled(s, step) && Posted(step)
    ensures Queues(s.exec, Scheduled(s, step), Apply(s, step).exec)
  {
    hide ApplyClosure, EndScript, HostCall, CancelCall, Shutdown, Park, TimeoutSet, CancelTimer, Created, DeliverTop;
    hide OwedAtEnd, OwedByHandler, OwedByClosure;
  }

  lemma ScriptExec(s: State, step: Step)
    requires Enabled(s, step) && (FromScript(step) || step.ScriptPark?)
    ensures Queues(s.exec, Scheduled(s, step), Apply(s, step).exec)
  {
    hide ApplyClosure, EndScript, HostCall, CancelCall, Shutdown, SetSt, CancelTimerLua, PushTask, Interrupt;
    hide OwedAtEnd, OwedByHandler, OwedByClosure, DeliverTop, PushResume, PushGated;
  }

  lemma HostExec(s: State, step: Step)
    requires Enabled(s, step) && (step.HostCalls? || step.HostCancels? || step.HostShutsDown?)
    ensures Apply(s, step).exec == s.exec
  {
    match step {
      case HostCalls(spare) => EnterExec(NewHandlerId(s), spare, AfterCall(s.hist.nextId)); hide Enter;
      case HostCancels(co) => CancelExec(s, co); hide CancelCall;
      case HostShutsDown(order) => DownExec(s, order); hide Shutdown;
    }
  }

  lemma CancelExec(s: State, co: Co)
    ensures CancelCall(s, co).exec == s.exec
  {
    var s1 := if co in s.completions then
                s.(completions := s.completions - {co},
                   hist := s.hist.(cancelled := s.hist.cancelled + {s.completions[co].id},
                                   place := s.hist.place[s.completions[co].id := Cancelled]))
              else s;
    ReleaseExec(s1, co);
    hide Purge, Release;
  }

  lemma DownExec(s: State, order: seq<Co>)
    requires Enumerates(order, s.completions.Keys)
    ensures Shutdown(s, order).exec == s.exec
  {
    hide CancelAllLua, PoolShutdownLua, ShutdownSettlements, PlacesAfterShutdown;
  }

  /** The queue after a step: less the closure that was run, and with the one that was scheduled. */
  lemma QueueStep(s: State, step: Step)
    requires Enabled(s, step)
    ensures Queues(Left(s, step), Scheduled(s, step), Apply(s, step).exec)
  {
    if step.RunClosure? {
      ClosureExec(s, step.t, step.choice);
      hide ApplyClosure, OwedByClosure, Queues;
    } else if step.ScriptEnd? {
      EndExec(s, Top(s), s.ctl[|s.ctl| - 1].after, step.out);
      hide EndScript, OwedAtEnd, Queues;
    } else if step.RunHandler? {
      HandlerExec(s);
      hide DeliverTop, OwedByHandler, Queues;
    } else if Posted(step) {
      PostedExec(s, step);
      hide Apply, Scheduled, Queues;
    } else if FromScript(step) || step.ScriptPark? {
      ScriptExec(s, step);
      hide Apply, Scheduled, Queues;
    } else {
      HostExec(s, step);
      hide Apply;
    }
  }
}
