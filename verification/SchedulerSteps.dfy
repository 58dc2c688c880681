/**
 The steps of the runtime and its runs.

 A closure runs only when the call stack is empty (one executor thread). Script steps
 need a script on top of the stack. Host calls and calls from other threads can come at
 any moment.
 */
module SchedulerSteps {
  import opened SchedulerState
  import opened Wrappers

  datatype Choice = Choice(spare: Slot, loads: bool, args: seq<Value>, coOrder: seq<Co>, handlerOrder: seq<Co>)

  datatype Step =
    // the executor
    | RunClosure(t: nat, choice: Choice)
    | RunHandler
    // the script on top of the call stack
    | ScriptPark(sleep: bool)
    | ScriptSetTimeout(fn: Ref)
    | ScriptClearTimeout(h: Handle)
    | ScriptCreate(co: Co)
    | ScriptResume(co: Co)
    | ScriptClose(co: Co)
    | ScriptRuns // instructions that touch nothing modelled here
    | ScriptEnd(out: Outcome)
    // Lua's garbage collector
    | Collect(co: Co)
    // the host, on the executor thread
    | HostCalls(spare: Slot)
    | HostCancels(co: Co)
    | HostShutsDown(order: seq<Co>)
    // any thread
    | PostTask(kind: TaskKind)
    | PostResume(h: Handle, args: seq<Value>)
    | PostRequireRun(h: Handle)
    | PostLoadFileRun(h: Handle)
    | PostClearInterrupt
    | PostInterrupt
    | SetPaused(paused: bool)
    | PostBeginShutdown
    | TakeFault

  predicate ScriptOnTop(s: State) {
    s.ctl != [] && s.ctl[|s.ctl| - 1].Frame?
  }

  function Top(s: State): Co
    requires ScriptOnTop(s)
  {
    s.ctl[|s.ctl| - 1].co
  }

  predicate IsScriptCo(s: State, co: Co) {
    co in s.lua.cos && s.lua.cos[co].kind.Script?
  }

  // A handle that an engine operation other than sleep obtained: the operation may
  // complete it, at any time and any number of times.
  predicate AsyncHandle(s: State, h: Handle) {
    h in s.hist.issued && !s.hist.issued[h].sleep
  }

  predicate Enabled(s: State, step: Step) {
    match step
    case RunClosure(t, ch) =>
      && s.ctl == []
      && t in s.exec.queue
      && SpareSlot(s, ch.spare)
      && (s.exec.queue[t].InterruptPass? ==>
            Enumerates(ch.coOrder, s.pool.active.Keys) && Enumerates(ch.handlerOrder, s.completions.Keys))
    case RunHandler => s.ctl != [] && s.ctl[|s.ctl| - 1].Deliver?
    case ScriptPark(_) => ScriptOnTop(s)
    case ScriptSetTimeout(fn) => ScriptOnTop(s) && fn !in s.lua.registry
    case ScriptClearTimeout(_) => ScriptOnTop(s)
    case ScriptCreate(co) => ScriptOnTop(s) && co !in s.lua.cos
    case ScriptResume(co) =>
      ScriptOnTop(s) && IsScriptCo(s, co) && (s.lua.cos[co].st.Fresh? || s.lua.cos[co].st.Suspended?)
    case ScriptClose(co) => ScriptOnTop(s) && IsScriptCo(s, co) && !s.lua.cos[co].st.Running?
    case ScriptRuns => ScriptOnTop(s)
    case ScriptEnd(_) => ScriptOnTop(s)
    // The collector sees the stack and the pin table, not `pending`.
    case Collect(co) => IsScriptCo(s, co) && !s.lua.cos[co].st.Running? && co !in s.pins.Values
    case HostCalls(spare) => !s.closed && SpareSlot(s, spare)
    case HostCancels(co) =>
      co in s.completions && s.completions[co].HostCallback? && SuspendedAt(s.lua, co)
    case HostShutsDown(order) => s.ctl == [] && Enumerates(order, s.completions.Keys)
    case PostResume(h, _) => AsyncHandle(s, h)
    case PostRequireRun(h) => AsyncHandle(s, h)
    case PostLoadFileRun(h) => AsyncHandle(s, h)
    case _ => true
  }

  function ApplyClosure(s: State, t: nat, ch: Choice): State
    requires Enabled(s, RunClosure(t, ch))
  {
    var s1 := Dequeue(s, t);
    match s.exec.queue[t]
    case Task(_, _) => RunTask(s, t, ch.spare, ch.loads)
    case Resume(h, args) => if s.shuttingDown then s1 else DoResume(s1, h, args)
    case RequireRun(h) =>
      RunRequire(s1, h, ch.spare, ch.loads, if ch.args == [] then 0 else ch.args[0])
    case LoadFileRun(h) => RunLoadFile(s1, h, ch.spare, ch.args)
    case InterruptPass => RunInterruptPass(s1, ch.coOrder, ch.handlerOrder)
    case ClearFlag => s1.(interrupted := false)
    case SleepExpiry(h) => RunSleepExpiry(s1, h)
    case TimeoutExpiry(h, fn) => RunTimeoutExpiry(s1, h, fn, ch.spare)
  }

  function Park(s: State, co: Co, sleep: bool): State {
    var s1 := PreYield(s, co, sleep);
    if sleep then ArmSleep(s1, s.timers.next) else s1
  }

  function Apply(s: State, step: Step): State
    requires Enabled(s, step)
  {
    match step
    case RunClosure(t, ch) => ApplyClosure(s, t, ch)
    case RunHandler => DeliverTop(s)
    case ScriptPark(sleep) => Park(s, Top(s), sleep)
    case ScriptSetTimeout(fn) => TimeoutSet(s, fn)
    case ScriptClearTimeout(h) => CancelTimer(s, h)
    case ScriptCreate(co) => Created(s, co)
    case ScriptResume(co) => PushFrame(s, co, ByScript)
    case ScriptClose(co) => s.(lua := SetSt(s.lua, co, Dead))
    case ScriptRuns => s
    case ScriptEnd(out) => EndScript(s, out)
    case Collect(co) => s.(lua := s.lua.(cos := s.lua.cos - {co}))
    case HostCalls(spare) => HostCall(s, spare)
    case HostCancels(co) => CancelCall(s, co)
    case HostShutsDown(order) => Shutdown(s, order)
    case PostTask(kind) => PushTask(s, kind)
    case PostResume(h, args) => PushResume(s, h, args)
    case PostRequireRun(h) => PushGated(s, RequireRun(h))
    case PostLoadFileRun(h) => PushGated(s, LoadFileRun(h))
    case PostClearInterrupt => s.(exec := Schedule(s.exec, ClearFlag))
    case PostInterrupt => Interrupt(s)
    case SetPaused(b) => s.(paused := b)
    case PostBeginShutdown => s.(shuttingDown := true)
    case TakeFault => s.(unhandled := None)
  }

  // A run is the sequence of states it goes through and the steps between them.
  datatype Run = Run(states: seq<State>, steps: seq<Step>)

  predicate ValidRun(r: Run) {
    && |r.states| == |r.steps| + 1
    && r.states[0] == INITIAL
    && forall i | 0 <= i < |r.steps| :: StepAt(r, i)
  }

  predicate StepAt(r: Run, i: nat)
    requires i < |r.steps| && |r.states| == |r.steps| + 1
  {
    Enabled(r.states[i], r.steps[i]) && r.states[i + 1] == Apply(r.states[i], r.steps[i])
  }

  /**
   The one step that can leave a handle behind: a module body that ends in its first
   lua_resume, while an operation it started and could not wait for (a yield across a C
   call raises instead) is still pending. ProcessRequireRun then releases the coroutine
   without CleanupStalePendings.
   */
  predicate LeavesBehind(s: State, step: Step, h: Handle) {
    && step.ScriptEnd? && !step.out.Yielded?
    && ScriptOnTop(s) && s.ctl[|s.ctl| - 1].after.AfterRequire?
    && h in HandlesOf(s, Top(s))
  }
}
