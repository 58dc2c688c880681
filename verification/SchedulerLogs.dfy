/** What one step adds to the history, and what it does to the call stack. */
module SchedulerLogs {
  import opened SchedulerState
  import opened SchedulerSteps
  import opened SchedulerProgress

  predicate Silent(s: State, s1: State) {
    s1.hist.issued == s.hist.issued && s1.hist.resumes == s.hist.resumes
  }

  // The coroutine of a pending handle was suspended and is resumed for it.
  predicate Resumes(s: State, s1: State, h: Handle) {
    && s1.hist.issued == s.hist.issued && |s1.hist.resumes| == |s.hist.resumes| + 1
    && s1.hist.resumes[..|s.hist.resumes|] == s.hist.resumes
    && var r := s1.hist.resumes[|s.hist.resumes|];
       && r.h == h && h in s.pending && r.co == s.pending[h] && SuspendedAt(s.lua, r.co)
       && r.epoch == s.lua.cos[r.co].epoch && h !in s1.pending
  }

  lemma DoResumeLogs(s: State, h: Handle, args: seq<Value>)
    ensures Silent(s, DoResume(s, h, args)) || Resumes(s, DoResume(s, h, args), h)
  {
    hide SetSt, Purge, Release;
    if h in s.pending && !SuspendedAt(s.lua, s.pending[h]) {
      var s1 := Record(s.(pins := s.pins - {h}, pending := s.pending - {h}), NotResumable(h));
      PurgeIsQuiet(s1, s.pending[h]);
      ReleaseIsQuiet(Purge(s1, s.pending[h]), s.pending[h]);
    }
  }

  lemma EnteringIsSilent(s: State, t: nat, spare: Slot, loads: bool, caller: Handle, message: Value, args: seq<Value>)
    ensures t in s.exec.queue && s.exec.queue[t].Task? ==> Silent(s, RunTask(s, t, spare, loads))
    ensures Silent(s, RunRequire(s, caller, spare, loads, message))
    ensures Silent(s, RunLoadFile(s, caller, spare, args))
  {
    hide LoadOnly, Enter;
    EnterIsQuiet(s, spare, AfterRequire(caller));
    if t in s.exec.queue && s.exec.queue[t].Task? {
      EnterIsQuiet(Dequeue(s, t), spare, AfterTask(s.exec.queue[t].id));
    }
  }

  lemma TimeoutIsSilent(s: State, h: Handle, fn: Ref, spare: Slot)
    ensures Silent(s, RunTimeoutExpiry(s, h, fn, spare))
  {
    hide SetSt, LuaAcquire, PoolAcquire, Unref;
  }

  // The handle that a queued closure resumes, if it gets that far.
  predicate Wakes(s: State, c: Closure, h: Handle) {
    (c.Resume? && c.h == h) || (c == SleepExpiry(h) && !s.paused)
  }

  lemma ClosureLogs(s: State, t: nat, ch: Choice)
    requires Enabled(s, RunClosure(t, ch))
    ensures var s1 := ApplyClosure(s, t, ch); var c := s.exec.queue[t];
            Silent(s, s1) || ((c.Resume? || c.SleepExpiry?) && Wakes(s, c, c.h) && Resumes(s, s1, c.h))
  {
    hide RunTask, DoResume, RunRequire, RunLoadFile, RunTimeoutExpiry;
    hide CancelAllLua, ResetAll, PoolReleaseAll, InterruptedItems, PlacesAfterSwap, Schedule;
    var s1 := Dequeue(s, t);
    match s.exec.queue[t] {
      case Task(_, _) => EnteringIsSilent(s, t, ch.spare, ch.loads, 0, 0, []);
      case Resume(h, args) => DoResumeLogs(s1, h, args);
      case RequireRun(h) => EnteringIsSilent(s1, t, ch.spare, ch.loads, h, if ch.args == [] then 0 else ch.args[0], []);
      case LoadFileRun(h) => EnteringIsSilent(s1, t, ch.spare, ch.loads, h, 0, ch.args);
      case InterruptPass =>
      case ClearFlag =>
      case SleepExpiry(h) => DoResumeLogs(s1.(timers := s1.timers.(active := s1.timers.active - {h})), h, []);
      case TimeoutExpiry(h, fn) => TimeoutIsSilent(s1, h, fn, ch.spare);
    }
  }

  lemma StepIsSilent(s: State, step: Step)
    requires Enabled(s, step) && !step.RunClosure? && !step.ScriptPark?
    ensures Silent(s, Apply(s, step))
  {
    match step {
      case ScriptEnd(out) => EndIsQuiet(s, out); hide EndScript;
      case HostCalls(spare) => HostCallIsQuiet(s, spare); hide HostCall;
      case HostCancels(co) => CancelIsQuiet(s, co); hide CancelCall;
      case _ => OtherIsSilent(s, step); hide Apply;
    }
  }

  lemma OtherIsSilent(s: State, step: Step)
    requires Enabled(s, step) && !step.RunClosure? && !step.ScriptPark?
    requires !step.ScriptEnd? && !step.HostCalls? && !step.HostCancels?
    ensures Silent(s, Apply(s, step))
  {
    if step.HostShutsDown? {
      ShutdownIsSilent(s, step.order);
    } else if Posted(step) {
      PostedIsSilent(s, step);
    } else {
      ScriptIsSilent(s, step);
    }
    hide Apply;
  }

  lemma ShutdownIsSilent(s: State, order: seq<Co>)
    requires Enabled(s, HostShutsDown(order))
    ensures Silent(s, Apply(s, HostShutsDown(order)))
  {
    hide CancelAllLua, PoolShutdownLua, ShutdownSettlements, PlacesAfterShutdown;
  }

  lemma PostedIsSilent(s: State, step: Step)
    requires Enabled(s, step) && Posted(step)
    ensures Silent(s, Apply(s, step))
  {
    hide ApplyClosure, EndScript, HostCall, CancelCall, Shutdown, Park, TimeoutSet, CancelTimer, Created;
    hide DeliverTop, Schedule;
  }

  lemma ScriptIsSilent(s: State, step: Step)
    requires Enabled(s, step) && (step.RunHandler? || FromScript(step))
    ensures Silent(s, Apply(s, step))
  {
    hide ApplyClosure, EndScript, HostCall, CancelCall, Shutdown, Park, SetSt, Schedule, CancelTimerLua;
    hide PushTask, Interrupt;
  }

  /** Only a wake-up adds to the resumptions, and it adds one. */
  lemma StepLogs(s: State, step: Step)
    requires Enabled(s, step)
    ensures var s1 := Apply(s, step);
            match step
            case RunClosure(t, _) =>
              var c := s.exec.queue[t];
              Silent(s, s1) || ((c.Resume? || c.SleepExpiry?) && Wakes(s, c, c.h) && Resumes(s, s1, c.h))
            case ScriptPark(_) =>
              var h := s.timers.next;
              && h in s1.hist.issued && s1.hist.issued == s.hist.issued[h := s1.hist.issued[h]]
              && s1.hist.resumes == s.hist.resumes
            case _ => Silent(s, s1)
  {
    match step {
      case RunClosure(t, ch) => ClosureLogs(s, t, ch); hide ApplyClosure;
      case ScriptPark(_) => hide Schedule;
      case _ => StepIsSilent(s, step); hide Apply;
    }
  }

  lemma AtMostOneResumption(s: State, step: Step)
    requires Enabled(s, step)
    ensures |Apply(s, step).hist.resumes| <= |s.hist.resumes| + 1
  {
    StepLogs(s, step);
    hide Apply, Enabled, Wakes;
  }

  // --- the call stack ---

  // The item at the top goes only by running, if it is a handler; nothing below it changes.
  predicate StackKept(s: State, step: Step, s1: State) {
    && s.ctl != []
    && var n := |s.ctl| - 1;
       && |s1.ctl| >= n && s1.ctl[..n] == s.ctl[..n]
       && (s.ctl[n].Deliver? && step != RunHandler ==> |s1.ctl| > n && s1.ctl[n] == s.ctl[n])
       && (step == RunHandler ==>
             && s.ctl[n].Deliver? && s1.ctl == s.ctl[..n]
             && s1.hist.settled == s.hist.settled + [Settlement(s.ctl[n].handler.id, s.ctl[n].result)])
  }

  lemma DismissKeepsStack(s: State, co: Co)
    ensures Release(s, co).ctl == s.ctl && Release(Purge(s, co), co).ctl == s.ctl
  {
    hide HandlesOf, SetSt, PoolRelease;
  }

  lemma RecycleKeepsStack(s: State, co: Co, out: Outcome)
    requires !out.Yielded?
    ensures s.ctl <= Recycle(s, co, out).ctl
  {
    var s1 := Purge(s, co);
    DismissKeepsStack(s, co);
    DismissKeepsStack(s1.(completions := s1.completions - {co}), co);
    hide Release, HandlesOf;
  }

  lemma ReturnKeepsStack(s: State, co: Co, id: HandlerId, caller: Handle, out: Outcome)
    ensures s.ctl <= TaskReturned(s, co, id, out).ctl && s.ctl <= ResumeReturned(s, co, out).ctl
    ensures s.ctl <= CallReturned(s, co, id, out).ctl && s.ctl <= RequireReturned(s, co, caller, out).ctl
  {
    hide Recycle, Release, Purge, Schedule;
    DismissKeepsStack(s, co);
    if !out.Yielded? {
      RecycleKeepsStack(s, co, out);
      RecycleKeepsStack(PutHandler(s, co, TaskPromise(id)), co, out);
      DismissKeepsStack(PushResume(s, caller, RequireArgs(ResultOf(out))), co);
    }
  }

  lemma EndKeepsStack(s: State, out: Outcome)
    requires ScriptOnTop(s)
    ensures s.ctl[..|s.ctl| - 1] <= EndScript(s, out).ctl
  {
    hide TaskReturned, ResumeReturned, CallReturned, RequireReturned, SetSt;
    var Frame(co, after) := s.ctl[|s.ctl| - 1];
    var id := if after.AfterTask? || after.AfterCall? then after.id else 0;
    ReturnKeepsStack(PopFrame(s, out), co, id, if after.AfterRequire? then after.caller else 0, out);
  }

  lemma DeliverPopsStack(s: State)
    requires s.ctl != [] && s.ctl[|s.ctl| - 1].Deliver?
    ensures StackKept(s, RunHandler, DeliverTop(s))
  {
    hide Schedule;
  }

  lemma StepKeepsStack(s: State, step: Step)
    requires Enabled(s, step) && s.ctl != []
    ensures StackKept(s, step, Apply(s, step))
  {
    if step.ScriptEnd? {
      EndKeepsStack(s, step.out);
      hide EndScript;
    } else if step.RunHandler? {
      DeliverPopsStack(s);
      hide DeliverTop;
    } else {
      OtherKeepsStack(s, step);
      AllKept(s, step, Apply(s, step));
      hide Apply, StackKept;
    }
  }

  lemma AllKept(s: State, step: Step, s1: State)
    requires s.ctl != [] && s.ctl <= s1.ctl && step != RunHandler
    ensures StackKept(s, step, s1)
  {}

  lemma HostKeepsStack(s: State, step: Step)
    requires Enabled(s, step) && (step.HostCalls? || step.HostCancels?)
    ensures s.ctl <= Apply(s, step).ctl
  {
    hide ApplyClosure, EndScript, HandlesOf, SetSt, PoolRelease, LuaAcquire, PoolAcquire, Shutdown;
  }

  lemma OtherKeepsStack(s: State, step: Step)
    requires Enabled(s, step) && s.ctl != [] && !step.ScriptEnd? && !step.RunHandler?
    ensures s.ctl <= Apply(s, step).ctl
  {
    if step.HostCalls? || step.HostCancels? {
      HostKeepsStack(s, step);
    } else if Posted(step) {
      PostedKeepsStack(s, step);
    } else {
      ScriptKeepsStack(s, step);
    }
    hide Apply;
  }

  lemma PostedKeepsStack(s: State, step: Step)
    requires Enabled(s, step) && Posted(step)
    ensures Apply(s, step).ctl == s.ctl
  {
    hide ApplyClosure, EndScript, HostCall, CancelCall, Shutdown, Park, TimeoutSet, CancelTimer, Created;
    hide DeliverTop, Schedule;
  }

  lemma ParkKeepsStack(s: State, co: Co, sleep: bool)
    ensures Park(s, co, sleep).ctl == s.ctl
  {}

  lemma ScriptKeepsStack(s: State, step: Step)
    requires Enabled(s, step) && (step.ScriptPark? || FromScript(step))
    ensures s.ctl <= Apply(s, step).ctl
  {
    if step.ScriptPark? { ParkKeepsStack(s, Top(s), step.sleep); }
    hide ApplyClosure, EndScript, HostCall, CancelCall, Shutdown, PushTask, DeliverTop, SetSt, Schedule, CancelTimerLua;
    hide Interrupt, PushResume, PushGated, Park;
  }
}
