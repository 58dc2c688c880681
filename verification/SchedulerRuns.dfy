/** Every step keeps the invariant, so every state of every run has it. */
module SchedulerRuns {
  import opened SchedulerState
  import opened Wrappers
  import opened SchedulerSteps
  import opened SchedulerInvariant
  import opened SchedulerKeeps
  import opened SchedulerPlaces
  import opened SchedulerSafety

  // --- one step ---

  lemma ClosureKeeps(s: State, t: nat, ch: Choice)
    requires Inv(s) && Enabled(s, RunClosure(t, ch))
    ensures Inv(ApplyClosure(s, t, ch))
  {
    hide Inv, RunTask, DoResume, RunRequire, RunLoadFile, RunInterruptPass, RunSleepExpiry, RunTimeoutExpiry;
    QueuedCaller(s, t);
    var s1 := Dequeue(s, t);
    match s.exec.queue[t] {
      case Task(_, _) => RunTaskKeeps(s, t, ch.spare, ch.loads);
      case Resume(h, args) =>
        DequeueInv(s, t);
        if !s.shuttingDown {
          AsyncNotTimer(s1, h);
          DoResumeKeeps(s1, h, args);
        }
      case RequireRun(h) =>
        DequeueInv(s, t);
        RunRequireKeeps(s1, h, ch.spare, ch.loads, if ch.args == [] then 0 else ch.args[0]);
      case LoadFileRun(h) =>
        DequeueInv(s, t);
        RunLoadFileKeeps(s1, h, ch.spare, ch.args);
      case InterruptPass => InterruptPassKeeps(s, t, ch.coOrder, ch.handlerOrder);
      case ClearFlag =>
        DequeueInv(s, t);
        FlagsKeepInv(s1, s1.(interrupted := false));
      case SleepExpiry(h) => SleepExpiryKeeps(s, t, h);
      case TimeoutExpiry(h, fn) => TimeoutExpiryKeeps(s, t, h, fn, ch.spare);
    }
  }

  lemma DequeueInv(s: State, t: nat)
    requires Inv(s) && t in s.exec.queue && !s.exec.queue[t].Task? && !ForTimer(s.exec.queue[t])
    ensures Inv(Dequeue(s, t))
  {
    hide Core, PlaceInv;
    DequeueKeepsInv(s, t);
  }

  lemma QueuedCaller(s: State, t: nat)
    requires Inv(s) && t in s.exec.queue
    ensures match s.exec.queue[t]
            case Resume(h, _) => AsyncHandle(s, h)
            case RequireRun(h) => AsyncHandle(s, h)
            case LoadFileRun(h) => AsyncHandle(s, h)
            case _ => true
  {
    hide PlaceInv;
    Split(s);
    hide Core, Machine, Handles, Timing, PoolInv, CtlInv, KeyInv, ClosedInv, PendInv, ResumeInv, ArmedInv, TimerInv;
  }

  // A handle of an asynchronous operation never has a live timer.
  lemma AsyncNotTimer(s: State, h: Handle)
    requires Inv(s) && AsyncHandle(s, h)
    ensures h !in s.timers.active
  {
    hide PlaceInv;
    Split(s);
    hide Core, Machine, Handles, Timing, PoolInv, CtlInv, KeyInv, ClosedInv, PendInv, ResumeInv, ArmedInv;
  }

  lemma StepKeeps(s: State, step: Step)
    requires Inv(s) && Enabled(s, step)
    ensures Inv(Apply(s, step))
  {
    hide Core, PlaceInv, ApplyClosure, DeliverTop, Park, TimeoutSet, EndScript, HostCall, CancelCall;
    hide Shutdown, PushTask;
    match step {
      case RunClosure(t, ch) => ClosureKeeps(s, t, ch);
      case RunHandler => DeliverKeeps(s);
      case ScriptPark(sleep) => ParkKeeps(s, sleep);
      case ScriptEnd(out) => EndKeepsInv(s, out);
      case HostCalls(spare) => HostCallKeeps(s, spare);
      case HostCancels(co) => CancelKeepsInv(s, co);
      case HostShutsDown(order) => DownKeeps(s, order); ShutdownMoves(s, order);
      case PostTask(kind) => PushTaskKeeps(s, kind);
      case _ => SmallStepKeeps(s, step);
    }
  }

  lemma SmallStepKeeps(s: State, step: Step)
    requires Inv(s) && Enabled(s, step)
    requires !step.RunClosure? && !step.RunHandler? && !step.ScriptPark? && !step.ScriptEnd? && !step.HostCalls?
    requires !step.HostCancels? && !step.HostShutsDown? && !step.PostTask?
    ensures Inv(Apply(s, step))
  {
    hide Core, Placed, PushFrame, Schedule, TablesOf;
    match step {
      case ScriptSetTimeout(fn) => TimeoutKeeps(s, fn);
      case ScriptClearTimeout(h) => CancelTimerKeeps(s, h); SameTables(s, CancelTimer(s, h));
      case ScriptCreate(co) => CreateKeeps(s, co); SameTables(s, Created(s, co));
      case ScriptResume(co) => ResumeByScriptKeeps(s, co);
      case ScriptClose(co) => CloseKeeps(s, co); SameTables(s, s.(lua := SetSt(s.lua, co, Dead)));
      case ScriptRuns =>
      case Collect(co) => CollectKeeps(s, co); SameTables(s, s.(lua := s.lua.(cos := s.lua.cos - {co})));
      case PostResume(h, args) => if !s.shuttingDown { ScheduleKeepsInv(s, Resume(h, args)); }
      case PostRequireRun(h) => ScheduleKeepsInv(s, RequireRun(h));
      case PostLoadFileRun(h) => ScheduleKeepsInv(s, LoadFileRun(h));
      case PostClearInterrupt => ScheduleKeepsInv(s, ClearFlag);
      case PostInterrupt =>
        var s1 := s.(interrupted := true);
        FlagsKeepInv(s, s1);
        ScheduleKeepsInv(s1, InterruptPass);
      case SetPaused(b) => FlagsKeepInv(s, s.(paused := b));
      case PostBeginShutdown => FlagsKeepInv(s, s.(shuttingDown := true));
      case TakeFault => FlagsKeepInv(s, s.(unhandled := None));
    }
  }

  lemma SameTables(s: State, s1: State)
    requires s1.exec == s.exec && s1.ctl == s.ctl && s1.completions == s.completions && s1.hist == s.hist
    ensures TablesOf(s1) == TablesOf(s)
  {}

  // --- whole runs ---

  lemma {:induction false} RunKeeps(r: Run, n: nat)
    requires ValidRun(r) && n <= |r.steps|
    ensures Inv(r.states[n])
  {
    hide Inv;
    if n == 0 {
      InitialInv();
    } else {
      RunKeeps(r, n - 1);
      assert StepAt(r, n - 1);
      StepKeeps(r.states[n - 1], r.steps[n - 1]);
    }
  }

  // --- what the invariant says of a state between closures ---

  lemma PendingWasIssued(s: State, h: Handle)
    requires Inv(s) && h in s.pending
    ensures h in s.hist.issued && s.hist.issued[h].co == s.pending[h] && s.pending[h] in s.lua.cos
  {
    Split(s);
    assert Owned(s, h);
    hide Core, Machine, Handles, Timing, PlaceInv;
  }

  lemma OutIsSuspended(s: State, co: Co)
    requires Inv(s) && s.ctl == [] && co in s.lua.cos && s.lua.cos[co].kind.Pooled? && !s.lua.cos[co].st.Fresh?
    ensures SuspendedAt(s.lua, co)
  {
    Split(s);
    hide Core, Machine, Handles, Timing, PlaceInv, ResumeInv, CallerInv, PendInv, ArmedInv, TimerInv;
  }

  lemma PinsArePending(s: State)
    requires Inv(s)
    ensures s.pins == s.pending
  {}
}
