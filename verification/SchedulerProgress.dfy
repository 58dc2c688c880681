/** What no step takes back: the logs only grow, and a handle that is done stays done. */
module SchedulerProgress {
  import opened SchedulerState
  import opened SchedulerSteps

  // An issued handle that is neither pending nor a live timer.
  predicate Done(s: State, h: Handle) {
    h < s.timers.next && h !in s.pending && h !in s.timers.active
  }

  // The logs of `s` are prefixes of those of `s1`.
  predicate Continues(s: State, s1: State) {
    && s.hist.settled <= s1.hist.settled && s.hist.resumes <= s1.hist.resumes && s.timers.next <= s1.timers.next
  }

  predicate NotResumed(s: State, s1: State, h: Handle) {
    && s1.timers.fired[h] == s.timers.fired[h]
    && |s.hist.resumes| <= |s1.hist.resumes|
    && forall i | |s.hist.resumes| <= i < |s1.hist.resumes| :: s1.hist.resumes[i].h != h
  }

  predicate DoneStill(s: State, s1: State, h: Handle) {
    Done(s, h) ==> Done(s1, h) && NotResumed(s, s1, h)
  }

  // Nothing is issued, resumed, fired or settled, and no handle comes alive.
  predicate Quiet(s: State, s1: State) {
    && s1.hist.issued == s.hist.issued && s1.hist.settled == s.hist.settled && s1.hist.resumes == s.hist.resumes
    && s1.timers.next == s.timers.next && s1.timers.fired == s.timers.fired
    && s1.pending.Keys <= s.pending.Keys && s1.timers.active.Keys <= s.timers.active.Keys
  }

  lemma ReleaseIsQuiet(s: State, co: Co)
    ensures Quiet(s, Release(s, co))
  {}

  lemma PurgeIsQuiet(s: State, co: Co)
    ensures Quiet(s, Purge(s, co))
  {}

  lemma RecycleIsQuiet(s: State, co: Co, out: Outcome)
    requires !out.Yielded?
    ensures Quiet(s, Recycle(s, co, out))
  {
    hide Purge, Release;
    var s1 := Purge(s, co);
    PurgeIsQuiet(s, co);
    ReleaseIsQuiet(s1, co);
    ReleaseIsQuiet(s1.(completions := s1.completions - {co}), co);
  }

  lemma ReturnIsQuiet(s: State, co: Co, after: After, out: Outcome)
    ensures after.AfterTask? ==> Quiet(s, TaskReturned(s, co, after.id, out))
    ensures Quiet(s, ResumeReturned(s, co, out))
  {
    hide Recycle;
    if !out.Yielded? {
      RecycleIsQuiet(s, co, out);
      if after.AfterTask? { RecycleIsQuiet(PutHandler(s, co, TaskPromise(after.id)), co, out); }
    }
  }

  lemma CallReturnIsQuiet(s: State, co: Co, id: HandlerId, out: Outcome)
    ensures Quiet(s, CallReturned(s, co, id, out))
  {
    hide Purge, Release;
    PurgeIsQuiet(s, co);
    ReleaseIsQuiet(Purge(s, co), co);
  }

  lemma RequireReturnIsQuiet(s: State, co: Co, caller: Handle, out: Outcome)
    ensures Quiet(s, RequireReturned(s, co, caller, out))
  {
    hide Release;
    if !out.Yielded? { ReleaseIsQuiet(PushResume(s, caller, RequireArgs(ResultOf(out))), co); }
  }

  lemma EndIsQuiet(s: State, out: Outcome)
    requires ScriptOnTop(s)
    ensures Quiet(s, EndScript(s, out))
  {
    hide TaskReturned, ResumeReturned, CallReturned, RequireReturned;
    var Frame(co, after) := s.ctl[|s.ctl| - 1];
    var s0 := PopFrame(s, out);
    match after {
      case AfterCall(id) => CallReturnIsQuiet(s0, co, id, out);
      case AfterRequire(caller) => RequireReturnIsQuiet(s0, co, caller, out);
      case _ => ReturnIsQuiet(s0, co, after, out);
    }
  }

  lemma EnterIsQuiet(s: State, spare: Slot, after: After)
    ensures Quiet(s, LoadOnly(s, spare)) && Quiet(s, Enter(s, spare, after))
  {
    hide SetSt, LuaAcquire, PoolAcquire, Release;
    ReleaseIsQuiet(Acquire(s, spare), AcquiredCo(s.pool, spare));
  }

  lemma DoResumeContinues(s: State, hh: Handle, args: seq<Value>, h: Handle)
    ensures Continues(s, DoResume(s, hh, args)) && DoneStill(s, DoResume(s, hh, args), h)
  {
    if hh in s.pending {
      if SuspendedAt(s.lua, s.pending[hh]) {
        ResumedContinues(s, hh, args, h);
      } else {
        RefusedIsQuiet(s, hh, args);
        QuietContinues(s, DoResume(s, hh, args), h);
      }
    }
    hide DoResume;
  }

  lemma ResumedContinues(s: State, hh: Handle, args: seq<Value>, h: Handle)
    requires hh in s.pending && SuspendedAt(s.lua, s.pending[hh])
    ensures Continues(s, DoResume(s, hh, args)) && DoneStill(s, DoResume(s, hh, args), h)
  {
    hide SetSt;
  }

  lemma RefusedIsQuiet(s: State, hh: Handle, args: seq<Value>)
    requires hh in s.pending && !SuspendedAt(s.lua, s.pending[hh])
    ensures Quiet(s, DoResume(s, hh, args))
  {
    hide Purge, Release;
    var co := s.pending[hh];
    var s1 := Record(s.(pins := s.pins - {hh}, pending := s.pending - {hh}), NotResumable(hh));
    PurgeIsQuiet(s1, co);
    ReleaseIsQuiet(Purge(s1, co), co);
  }

  lemma TaskContinues(s: State, t: nat, spare: Slot, loads: bool, h: Handle)
    requires t in s.exec.queue && s.exec.queue[t].Task?
    ensures Continues(s, RunTask(s, t, spare, loads)) && DoneStill(s, RunTask(s, t, spare, loads), h)
  {
    TaskIsQuiet(s, t, spare, loads);
    QuietContinues(s, RunTask(s, t, spare, loads), h);
    hide *;
  }

  lemma TaskIsQuiet(s: State, t: nat, spare: Slot, loads: bool)
    requires t in s.exec.queue && s.exec.queue[t].Task?
    ensures Quiet(s, RunTask(s, t, spare, loads))
  {
    hide LoadOnly, Enter;
    EnterIsQuiet(Dequeue(s, t), spare, AfterTask(s.exec.queue[t].id));
  }

  lemma QuietContinues(s: State, s1: State, h: Handle)
    requires Quiet(s, s1)
    ensures Continues(s, s1) && DoneStill(s, s1, h)
  {}

  lemma RequireContinues(s: State, caller: Handle, spare: Slot, loads: bool, message: Value, h: Handle)
    ensures Continues(s, RunRequire(s, caller, spare, loads, message))
    ensures DoneStill(s, RunRequire(s, caller, spare, loads, message), h)
  {
    hide SetSt, Schedule, LuaAcquire, PoolAcquire;
  }

  lemma LoadContinues(s: State, caller: Handle, spare: Slot, args: seq<Value>, h: Handle)
    ensures Continues(s, RunLoadFile(s, caller, spare, args)) && DoneStill(s, RunLoadFile(s, caller, spare, args), h)
  {
    hide SetSt, Schedule, LuaAcquire, PoolAcquire;
  }

  lemma TimeoutContinues(s: State, hh: Handle, fn: Ref, spare: Slot, h: Handle)
    ensures Continues(s, RunTimeoutExpiry(s, hh, fn, spare)) && DoneStill(s, RunTimeoutExpiry(s, hh, fn, spare), h)
  {
    hide SetSt, Schedule, LuaAcquire, PoolAcquire, Unref;
  }

  lemma SleepContinues(s: State, hh: Handle, h: Handle)
    ensures Continues(s, RunSleepExpiry(s, hh)) && DoneStill(s, RunSleepExpiry(s, hh), h)
  {
    hide DoResume, Schedule;
    if hh in s.timers.active {
      DoResumeContinues(s.(timers := s.timers.(active := s.timers.active - {hh})), hh, [], h);
    }
  }

  lemma PassContinues(s: State, a: seq<Co>, b: seq<Co>, h: Handle)
    requires Enumerates(a, s.pool.active.Keys) && Enumerates(b, s.completions.Keys)
    ensures Continues(s, RunInterruptPass(s, a, b)) && DoneStill(s, RunInterruptPass(s, a, b), h)
  {}

  lemma ClosureContinues(s: State, t: nat, ch: Choice, h: Handle)
    requires Enabled(s, RunClosure(t, ch))
    ensures Continues(s, ApplyClosure(s, t, ch)) && DoneStill(s, ApplyClosure(s, t, ch), h)
  {
    hide RunTask, DoResume, RunRequire, RunLoadFile, RunInterruptPass, RunSleepExpiry, RunTimeoutExpiry;
    var s1 := Dequeue(s, t);
    match s.exec.queue[t] {
      case Task(_, _) => TaskContinues(s, t, ch.spare, ch.loads, h);
      case Resume(hh, args) => DoResumeContinues(s1, hh, args, h);
      case RequireRun(c) => RequireContinues(s1, c, ch.spare, ch.loads, if ch.args == [] then 0 else ch.args[0], h);
      case LoadFileRun(c) => LoadContinues(s1, c, ch.spare, ch.args, h);
      case InterruptPass => PassContinues(s1, ch.coOrder, ch.handlerOrder, h);
      case ClearFlag =>
      case SleepExpiry(c) => SleepContinues(s1, c, h);
      case TimeoutExpiry(c, fn) => TimeoutContinues(s1, c, fn, ch.spare, h);
    }
  }

  // The second half of the closure that started the script runs.
  lemma EndIs(s: State, out: Outcome)
    requires ScriptOnTop(s)
    ensures var Frame(co, after) := s.ctl[|s.ctl| - 1]; var s0, s1 := PopFrame(s, out), EndScript(s, out);
            match after
            case ByScript => s1 == s0
            case AfterTask(id) => s1 == TaskReturned(s0, co, id, out)
            case AfterCall(id) => s1 == CallReturned(s0, co, id, out)
            case AfterRequire(caller) => s1 == RequireReturned(s0, co, caller, out)
            case _ => s1 == ResumeReturned(s0, co, out)
  {
    hide TaskReturned, ResumeReturned, CallReturned, RequireReturned, PopFrame;
  }

  predicate FromScript(step: Step) {
    || step.ScriptSetTimeout? || step.ScriptClearTimeout? || step.ScriptCreate?
    || step.ScriptResume? || step.ScriptClose? || step.ScriptRuns? || step.Collect?
  }

  predicate Posted(step: Step) {
    || step.PostTask? || step.PostResume? || step.PostRequireRun? || step.PostLoadFileRun? || step.PostClearInterrupt?
    || step.PostInterrupt? || step.SetPaused? || step.PostBeginShutdown? || step.TakeFault?
  }

  lemma ScriptContinues(s: State, step: Step, h: Handle)
    requires Enabled(s, step) && FromScript(step)
    ensures Continues(s, Apply(s, step)) && DoneStill(s, Apply(s, step), h)
  {
    hide SetSt, Schedule, CancelTimerLua, ApplyClosure, EndScript, Shutdown, HostCall, CancelCall, DeliverTop;
    hide Interrupt, PushTask, Park;
  }

  lemma ParkContinues(s: State, co: Co, sleep: bool, h: Handle)
    ensures Continues(s, Park(s, co, sleep)) && DoneStill(s, Park(s, co, sleep), h)
  {
    hide Schedule;
  }

  lemma PostContinues(s: State, step: Step, h: Handle)
    requires Enabled(s, step) && Posted(step)
    ensures Continues(s, Apply(s, step)) && DoneStill(s, Apply(s, step), h)
  {
    hide SetSt, Schedule, CancelTimer, ApplyClosure, EndScript, Shutdown, HostCall, CancelCall, DeliverTop;
    hide Park, ArmTimeout;
  }

  lemma HostCallIsQuiet(s: State, spare: Slot)
    ensures Quiet(s, HostCall(s, spare))
  {
    hide Enter;
    EnterIsQuiet(NewHandlerId(s), spare, AfterCall(s.hist.nextId));
  }

  lemma CancelIsQuiet(s: State, co: Co)
    requires co in s.completions
    ensures Quiet(s, CancelCall(s, co))
  {
    hide Purge, Release;
    var s1 := s.(completions := s.completions - {co},
                 hist := s.hist.(cancelled := s.hist.cancelled + {s.completions[co].id},
                                 place := s.hist.place[s.completions[co].id := Cancelled]));
    PurgeIsQuiet(s1, co);
    ReleaseIsQuiet(Purge(s1, co), co);
  }

  lemma DeliverContinues(s: State, h: Handle)
    requires s.ctl != [] && s.ctl[|s.ctl| - 1].Deliver?
    ensures Continues(s, DeliverTop(s)) && DoneStill(s, DeliverTop(s), h)
  {
    var Deliver(hd, r) := s.ctl[|s.ctl| - 1];
    var s1 := Settle(s.(ctl := s.ctl[..|s.ctl| - 1]), hd.id, r);
    SettleContinues(s, s.ctl[..|s.ctl| - 1], hd.id, r, h);
    if hd.RequireDone? {
      PushResumeIsQuiet(s1, hd, r);
      ThenQuiet(s, s1, DeliverTop(s), h);
    }
    hide PushResume, Settle, Continues, DoneStill, Quiet;
  }

  lemma SettleContinues(s: State, ctl: seq<Ctl>, id: HandlerId, r: Result, h: Handle)
    ensures var s1 := Settle(s.(ctl := ctl), id, r); Continues(s, s1) && DoneStill(s, s1, h)
  {}

  lemma ThenQuiet(s: State, s1: State, s2: State, h: Handle)
    requires Continues(s, s1) && DoneStill(s, s1, h) && Quiet(s1, s2)
    ensures Continues(s, s2) && DoneStill(s, s2, h)
  {}

  lemma PushResumeIsQuiet(s: State, hd: Handler, r: Result)
    requires hd.RequireDone?
    ensures Quiet(s, PushResume(s, hd.caller, RequireArgs(r)))
  {
    hide Schedule;
  }

  lemma ShutdownContinues(s: State, order: seq<Co>, h: Handle)
    requires Enumerates(order, s.completions.Keys)
    ensures Continues(s, Shutdown(s, order)) && DoneStill(s, Shutdown(s, order), h)
  {
    hide CancelAllLua, PoolShutdownLua;
  }

  lemma StepContinues(s: State, step: Step, h: Handle)
    requires Enabled(s, step)
    ensures Continues(s, Apply(s, step)) && DoneStill(s, Apply(s, step), h)
  {
    match step {
      case RunClosure(t, ch) => ClosureContinues(s, t, ch, h); hide ApplyClosure;
      case ScriptEnd(out) => EndIsQuiet(s, out); hide EndScript;
      case HostCalls(spare) => HostCallIsQuiet(s, spare); hide HostCall;
      case HostCancels(co) => CancelIsQuiet(s, co); hide CancelCall;
      case RunHandler => DeliverContinues(s, h); hide DeliverTop;
      case HostShutsDown(order) => ShutdownContinues(s, order, h); hide Shutdown;
      case ScriptPark(sleep) => ParkContinues(s, Top(s), sleep, h); hide Park;
      case _ => if FromScript(step) { ScriptContinues(s, step, h); } else { PostContinues(s, step, h); } hide Apply;
    }
  }

  lemma Chains(a: State, b: State, c: State, h: Handle)
    requires Continues(a, b) && DoneStill(a, b, h) && Continues(b, c) && DoneStill(b, c, h)
    ensures Continues(a, c) && DoneStill(a, c, h)
  {
    assert forall k | |a.hist.resumes| <= k < |b.hist.resumes| :: c.hist.resumes[k] == b.hist.resumes[k];
  }

  lemma {:induction false} RunContinues(r: Run, i: nat, j: nat, h: Handle)
    requires ValidRun(r) && i <= j <= |r.steps|
    ensures Continues(r.states[i], r.states[j])
    ensures DoneStill(r.states[i], r.states[j], h)
  {
    hide Apply, Enabled, Continues, DoneStill;
    if i == j {
      NothingYet(r.states[i], h);
    } else {
      RunContinues(r, i, j - 1, h);
      assert StepAt(r, j - 1);
      StepContinues(r.states[j - 1], r.steps[j - 1], h);
      Chains(r.states[i], r.states[j - 1], r.states[j], h);
    }
  }

  lemma NothingYet(s: State, h: Handle)
    ensures Continues(s, s) && DoneStill(s, s, h)
  {}
}
