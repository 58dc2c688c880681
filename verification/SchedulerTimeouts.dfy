/** Which setTimeout timers are live, exactly. */
module SchedulerTimeouts {
  import opened SchedulerState
  import opened SchedulerSteps
  import opened SchedulerInvariant
  import opened SchedulerKeeps
  import opened SchedulerProgress
  import opened SchedulerUses
  import opened SchedulerRuns

  predicate LiveTimeout(s: State, h: Handle, fn: Ref) {
    h in s.timers.active && s.timers.active[h] == SetTimeout(fn)
  }

  predicate Arms(s: State, step: Step, h: Handle, fn: Ref) {
    step == ScriptSetTimeout(fn) && h == s.timers.next
  }

  // It is cleared, it fires, or every timer is cancelled.
  predicate Disarms(s: State, step: Step, h: Handle) {
    match step
    case ScriptClearTimeout(c) => c == h
    case HostShutsDown(_) => !s.shuttingDown
    case RunClosure(t, _) =>
      && t in s.exec.queue
      && (s.exec.queue[t].InterruptPass? || s.exec.queue[t].TimeoutExpiry?)
      && if s.exec.queue[t].InterruptPass? then !s.shuttingDown else s.exec.queue[t].h == h
    case _ => false
  }

  // The handle's timer is left alone, and the handle is not pending.
  predicate Same(s: State, s1: State, h: Handle) {
    && h !in s1.pending
    && (h in s1.timers.active <==> h in s.timers.active)
    && (h in s.timers.active ==> s1.timers.active[h] == s.timers.active[h])
  }

  // A handle that nobody is parked on.
  predicate Free(s: State, h: Handle) {
    h !in s.pending
  }

  lemma TimeoutIsFree(s: State, h: Handle)
    requires Inv(s)
    ensures h in s.timers.active && s.timers.active[h].SetTimeout? ==> Free(s, h)
    ensures s.timers.next !in s.timers.active && forall k <- s.pending :: k < s.timers.next
  {
    Split(s);
    if h in s.pending { PendingWasIssued(s, h); }
    forall k <- s.pending ensures k < s.timers.next { PendingWasIssued(s, k); }
    hide Core, Machine, Handles, Timing, PlaceInv, PoolInv, CtlInv, KeyInv, ClosedInv, ResumeInv, CallerInv;
  }

  // --- the operations ---

  lemma ReleaseSame(s: State, co: Co, h: Handle)
    requires Free(s, h)
    ensures Same(s, Release(s, co), h) && Same(s, Purge(s, co), h) && Same(s, Release(Purge(s, co), co), h)
  {
    hide SetSt, PoolRelease;
  }

  lemma EnterSame(s: State, spare: Slot, after: After, h: Handle)
    requires Free(s, h)
    ensures Same(s, Enter(s, spare, after), h) && Same(s, LoadOnly(s, spare), h)
  {
    hide SetSt, LuaAcquire, PoolAcquire, PoolRelease;
  }

  lemma RecycleSame(s: State, co: Co, out: Outcome, h: Handle)
    requires !out.Yielded? && Free(s, h)
    ensures Same(s, Recycle(s, co, out), h)
  {
    ReleaseSame(s, co, h);
    hide Release, Purge;
    var s1 := Purge(s, co);
    var s2 := if co in s.completions then s1.(completions := s1.completions - {co}) else s1;
    assert Same(s, s2, h);
    hide Same, ResultOf;
    ReleaseSame(s2, co, h);
    var s3 := Release(s2, co);
    if co in s.completions { DueKeepsTimers(s3, s.completions[co], ResultOf(out)); }
    RecordKeepsTimers(s3, UnhandledError(if out.Raised? then out.message else NIL));
    hide PushDeliver, Record;
    SameChains(s, s2, s3, Recycle(s, co, out), h);
  }

  lemma DueKeepsTimers(s: State, hd: Handler, result: Result)
    ensures PushDeliver(s, hd, result).timers == s.timers && PushDeliver(s, hd, result).pending == s.pending
  {}

  lemma RecordKeepsTimers(s: State, f: Fault)
    ensures Record(s, f).timers == s.timers && Record(s, f).pending == s.pending
  {}

  lemma SameChains(a: State, b: State, c: State, d: State, h: Handle)
    requires Same(a, b, h) && Same(b, c, h) && d.timers == c.timers && d.pending == c.pending
    ensures Same(a, d, h)
  {}

  lemma ReturnSame(s: State, co: Co, id: HandlerId, caller: Handle, out: Outcome, h: Handle)
    requires Free(s, h)
    ensures Same(s, TaskReturned(s, co, id, out), h) && Same(s, ResumeReturned(s, co, out), h)
    ensures Same(s, CallReturned(s, co, id, out), h) && Same(s, RequireReturned(s, co, caller, out), h)
  {
    if !out.Yielded? {
      RecycleSame(s, co, out, h);
      RecycleSame(PutHandler(s, co, TaskPromise(id)), co, out, h);
      ReleaseSame(s, co, h);
      ReleaseSame(PushResume(s, caller, RequireArgs(ResultOf(out))), co, h);
    }
    hide Recycle, Release, Purge, Schedule;
  }

  lemma EndSame(s: State, co: Co, after: After, out: Outcome, h: Handle)
    requires Free(s, h) && s.ctl != [] && s.ctl[|s.ctl| - 1] == Frame(co, after)
    ensures Same(s, EndScript(s, out), h)
  {
    var s0 := PopFrame(s, out);
    assert Same(s, s0, h) by { hide SetSt; }
    EndIs(s, out);
    hide EndScript, TaskReturned, ResumeReturned, CallReturned, RequireReturned, PopFrame;
    match after {
      case AfterTask(id) => ReturnSame(s0, co, id, 0, out, h);
      case AfterCall(id) => ReturnSame(s0, co, id, 0, out, h);
      case AfterRequire(caller) => ReturnSame(s0, co, 0, caller, out, h);
      case _ => ReturnSame(s0, co, 0, 0, out, h);
    }
  }

  lemma DoResumeSame(s: State, w: Handle, args: seq<Value>, h: Handle)
    requires Free(s, h)
    ensures Same(s, DoResume(s, w, args), h)
  {
    if w in s.pending && !SuspendedAt(s.lua, s.pending[w]) {
      ReleaseSame(Record(s.(pins := s.pins - {w}, pending := s.pending - {w}), NotResumable(w)), s.pending[w], h);
    }
    hide Purge, Release, SetSt;
  }

  lemma TaskSame(s: State, t: nat, spare: Slot, loads: bool, h: Handle)
    requires t in s.exec.queue && s.exec.queue[t].Task? && Free(s, h)
    ensures Same(s, RunTask(s, t, spare, loads), h)
  {
    var s1 := Dequeue(s, t);
    assert Same(s, s1, h) && s1.timers == s.timers && s1.pending == s.pending;
    EnterSame(s1, spare, AfterTask(s.exec.queue[t].id), h);
    DueKeepsTimers(s1, TaskPromise(s.exec.queue[t].id), Rejected);
    DueKeepsTimers(LoadOnly(s1, spare), TaskPromise(s.exec.queue[t].id), LoadError);
    hide Enter, LoadOnly, PushDeliver, Dequeue;
  }

  lemma GatedSame(s: State, caller: Handle, spare: Slot, loads: bool, message: Value, args: seq<Value>, h: Handle)
    requires Free(s, h)
    ensures Same(s, RunRequire(s, caller, spare, loads, message), h) && Same(s, RunLoadFile(s, caller, spare, args), h)
  {
    EnterSame(s, spare, AfterRequire(caller), h);
    hide Enter, LoadOnly, Schedule;
  }

  lemma SleepSame(s: State, w: Handle, h: Handle)
    requires Free(s, h) && w != h
    ensures Same(s, RunSleepExpiry(s, w), h)
  {
    DoResumeSame(s.(timers := s.timers.(active := s.timers.active - {w})), w, [], h);
    hide DoResume, Schedule;
  }

  lemma TimeoutSame(s: State, w: Handle, fn: Ref, spare: Slot, h: Handle)
    requires Free(s, h) && w != h
    ensures Same(s, RunTimeoutExpiry(s, w, fn, spare), h)
  {
    hide SetSt, LuaAcquire, PoolAcquire, Unref;
  }

  lemma TimeoutFires(s: State, h: Handle, fn: Ref, spare: Slot)
    ensures h !in RunTimeoutExpiry(s, h, fn, spare).timers.active
  {
    hide SetSt, LuaAcquire, PoolAcquire, Unref;
  }

  lemma PassDisarms(s: State, a: seq<Co>, b: seq<Co>)
    requires Enumerates(a, s.pool.active.Keys) && Enumerates(b, s.completions.Keys)
    ensures RunInterruptPass(s, a, b).timers.active == if s.shuttingDown then s.timers.active else map[]
  {
    hide CancelAllLua, ResetAll, PoolReleaseAll, InterruptedItems, PlacesAfterSwap;
  }

  // What becomes of one timer.
  predicate TimerNext(s: State, step: Step, s1: State, h: Handle, fn: Ref) {
    LiveTimeout(s1, h, fn) <==> (LiveTimeout(s, h, fn) && !Disarms(s, step, h)) || Arms(s, step, h, fn)
  }

  lemma SleepNeverATimeout(s: State, w: Handle)
    requires Inv(s) && w in s.timers.active && SleepExpiry(w) in s.exec.queue.Values
    ensures s.timers.active[w] == Sleep
  {
    Split(s);
    hide Core, Machine, Handles, Timing, PlaceInv, PoolInv, CtlInv, KeyInv, ClosedInv, PendInv, ResumeInv;
    hide CallerInv, TimerInv;
    var t :| t in s.exec.queue && s.exec.queue[t] == SleepExpiry(w);
    assert ForTimer(s.exec.queue[t]);
  }

  lemma SleepGone(s: State, h: Handle)
    requires h !in s.timers.active
    ensures RunSleepExpiry(s, h) == s
  {
    hide DoResume, ArmSleep;
  }

  lemma WakeSame(s: State, t: nat, ch: Choice, h: Handle)
    requires Enabled(s, RunClosure(t, ch)) && Free(s, h)
    requires !s.exec.queue[t].InterruptPass?
    requires s.exec.queue[t] == SleepExpiry(h) ==> h !in s.timers.active
    requires s.exec.queue[t].TimeoutExpiry? ==> s.exec.queue[t].h != h
    ensures Same(s, ApplyClosure(s, t, ch), h)
  {
    var s1 := Dequeue(s, t);
    assert Same(s, s1, h);
    hide RunTask, DoResume, RunRequire, RunLoadFile, RunInterruptPass, RunSleepExpiry, RunTimeoutExpiry;
    hide Dequeue, Enabled, SpareSlot, Enumerates;
    match s.exec.queue[t] {
      case Task(_, _) => TaskSame(s, t, ch.spare, ch.loads, h);
      case Resume(w, args) => DoResumeSame(s1, w, args, h);
      case RequireRun(c) => GatedSame(s1, c, ch.spare, ch.loads, if ch.args == [] then 0 else ch.args[0], [], h);
      case LoadFileRun(c) => GatedSame(s1, c, ch.spare, ch.loads, 0, ch.args, h);
      case SleepExpiry(w) => if w == h { SleepGone(s1, h); } else { SleepSame(s1, w, h); }
      case TimeoutExpiry(w, g) => TimeoutSame(s1, w, g, ch.spare, h);
      case _ =>
    }
  }

  lemma ClosureTimer(s: State, t: nat, ch: Choice, h: Handle, fn: Ref)
    requires Inv(s) && Enabled(s, RunClosure(t, ch)) && Free(s, h)
    ensures TimerNext(s, RunClosure(t, ch), ApplyClosure(s, t, ch), h, fn)
  {
    var s1 := Dequeue(s, t);
    var c := s.exec.queue[t];
    if c.InterruptPass? {
      PassDisarms(s1, ch.coOrder, ch.handlerOrder);
    } else if c.TimeoutExpiry? && c.h == h {
      TimeoutFires(s1, h, c.fn, ch.spare);
    } else {
      if c == SleepExpiry(h) { SleepHere(s, t, h); }
      WakeSame(s, t, ch, h);
      hide ApplyClosure;
    }
    hide Inv, RunInterruptPass, RunTimeoutExpiry, SpareSlot, Enumerates;
  }

  // A sleep whose handle is not pending was cancelled.
  lemma SleepHere(s: State, t: nat, h: Handle)
    requires Inv(s) && t in s.exec.queue && s.exec.queue[t] == SleepExpiry(h) && Free(s, h)
    ensures h !in s.timers.active
  {
    if h in s.timers.active {
      assert SleepExpiry(h) in s.exec.queue.Values;
      SleepNeverATimeout(s, h);
    }
    SleepsArePending(s, h);
    hide Inv;
  }

  lemma SleepsArePending(s: State, h: Handle)
    requires Inv(s)
    ensures h in s.timers.active && s.timers.active[h].Sleep? ==> h in s.pending
  {
    Split(s);
    hide Core, Machine, Handles, Timing, PlaceInv, PoolInv, CtlInv, KeyInv, ClosedInv, PendInv, ResumeInv;
    hide CallerInv, ArmedInv;
  }

  // --- every step ---

  lemma DeliverTimers(s: State)
    requires s.ctl != [] && s.ctl[|s.ctl| - 1].Deliver?
    ensures DeliverTop(s).timers == s.timers
  {
    hide RequireArgs;
  }

  lemma PostedTimers(s: State, step: Step)
    requires Enabled(s, step) && (Posted(step) || step.RunHandler?)
    ensures Apply(s, step).timers == s.timers
  {
    if step.RunHandler? { DeliverTimers(s); hide DeliverTop; }
    hide ApplyClosure, EndScript, HostCall, CancelCall, Shutdown, Park, TimeoutSet, CancelTimer, Created, Schedule;
  }

  lemma ParkArms(s: State, co: Co, sleep: bool, h: Handle, fn: Ref)
    requires s.timers.next !in s.timers.active
    ensures LiveTimeout(Park(s, co, sleep), h, fn) <==> LiveTimeout(s, h, fn)
  {
    hide SetSt, Schedule;
  }

  lemma SetArms(s: State, fn: Ref, h: Handle, g: Ref)
    requires s.timers.next !in s.timers.active
    ensures LiveTimeout(TimeoutSet(s, fn), h, g) <==> LiveTimeout(s, h, g) || (g == fn && h == s.timers.next)
  {
    hide SetSt, Schedule;
  }

  lemma ClearDisarms(s: State, c: Handle, h: Handle, fn: Ref)
    ensures LiveTimeout(CancelTimer(s, c), h, fn) <==> LiveTimeout(s, h, fn) && h != c
  {
    hide Unref;
  }

  lemma ScriptTimer(s: State, step: Step, h: Handle, fn: Ref)
    requires Enabled(s, step) && (FromScript(step) || step.ScriptPark?)
    requires s.timers.next !in s.timers.active
    ensures TimerNext(s, step, Apply(s, step), h, fn)
  {
    match step {
      case ScriptPark(sleep) => ParkArms(s, Top(s), sleep, h, fn); hide Park, LiveTimeout;
      case ScriptSetTimeout(g) => SetArms(s, g, h, fn); hide TimeoutSet, LiveTimeout;
      case ScriptClearTimeout(c) => ClearDisarms(s, c, h, fn); hide CancelTimer, LiveTimeout;
      case _ => hide SetSt, Created, PushFrame; TimersKept(s, step);
    }
  }

  lemma TimersKept(s: State, step: Step)
    requires Enabled(s, step)
    requires FromScript(step) && !step.ScriptSetTimeout? && !step.ScriptClearTimeout?
    ensures Apply(s, step).timers == s.timers
  {
    hide SetSt, ApplyClosure, EndScript, HostCall, CancelCall, Shutdown, Schedule, CancelTimer, DeliverTop;
    hide PushTask, Interrupt, PushResume, PushGated, Park, TimeoutSet;
  }

  lemma CancelSame(s: State, co: Co, h: Handle)
    requires Free(s, h)
    ensures Same(s, CancelCall(s, co), h)
  {
    var s1 := if co in s.completions then
                s.(completions := s.completions - {co},
                   hist := s.hist.(cancelled := s.hist.cancelled + {s.completions[co].id},
                                   place := s.hist.place[s.completions[co].id := Cancelled]))
              else s;
    ReleaseSame(s1, co, h);
    hide Purge, Release;
  }

  lemma DownDisarms(s: State, order: seq<Co>)
    requires Enumerates(order, s.completions.Keys)
    ensures Shutdown(s, order).timers.active == if s.shuttingDown then s.timers.active else map[]
  {
    hide CancelAllLua, PoolShutdownLua, ShutdownSettlements, PlacesAfterShutdown;
  }

  lemma HostTimer(s: State, step: Step, h: Handle, fn: Ref)
    requires Enabled(s, step) && (step.HostCalls? || step.HostCancels? || step.HostShutsDown?) && Free(s, h)
    ensures TimerNext(s, step, Apply(s, step), h, fn)
  {
    match step {
      case HostCalls(spare) => EnterSame(NewHandlerId(s), spare, AfterCall(s.hist.nextId), h); hide Enter;
      case HostCancels(co) => CancelSame(s, co, h); hide CancelCall;
      case HostShutsDown(order) => DownDisarms(s, order); hide Shutdown;
    }
  }

  lemma FreeTimer(s: State, step: Step, h: Handle, fn: Ref)
    requires Inv(s) && Enabled(s, step) && Free(s, h)
    ensures TimerNext(s, step, Apply(s, step), h, fn)
  {
    TimeoutIsFree(s, h);
    hide Inv, TimerNext;
    if step.RunClosure? {
      ClosureTimer(s, step.t, step.choice, h, fn);
    } else if step.ScriptEnd? {
      EndTimer(s, step.out, h, fn);
    } else if step.HostCalls? || step.HostCancels? || step.HostShutsDown? {
      HostTimer(s, step, h, fn);
    } else if Posted(step) || step.RunHandler? {
      PostedTimer(s, step, h, fn);
    } else {
      ScriptTimer(s, step, h, fn);
    }
    hide Apply;
  }

  lemma EndTimer(s: State, out: Outcome, h: Handle, fn: Ref)
    requires Enabled(s, ScriptEnd(out)) && Free(s, h)
    ensures TimerNext(s, ScriptEnd(out), Apply(s, ScriptEnd(out)), h, fn)
  {
    EndSame(s, s.ctl[|s.ctl| - 1].co, s.ctl[|s.ctl| - 1].after, out, h);
    hide EndScript;
  }

  lemma PostedTimer(s: State, step: Step, h: Handle, fn: Ref)
    requires Enabled(s, step) && (Posted(step) || step.RunHandler?)
    ensures TimerNext(s, step, Apply(s, step), h, fn)
  {
    PostedTimers(s, step);
    hide Apply, Enabled;
  }

  lemma IssuedIsNoTimeout(s: State, h: Handle, fn: Ref)
    requires Inv(s) && h in s.hist.issued
    ensures !LiveTimeout(s, h, fn) && h < s.timers.next
  {
    Split(s);
    hide Core, Machine, Handles, Timing, PlaceInv, PoolInv, CtlInv, KeyInv, ClosedInv, ResumeInv, CallerInv, ArmedInv;
  }

  lemma UnissuedIsFree(s: State, h: Handle)
    requires Inv(s) && h !in s.hist.issued
    ensures Free(s, h)
  {
    if h in s.pending { PendingWasIssued(s, h); }
    hide Inv;
  }

  lemma IssuedStep(s: State, step: Step, h: Handle, fn: Ref)
    requires Inv(s) && Enabled(s, step) && h in s.hist.issued
    ensures !LiveTimeout(s, h, fn) && !LiveTimeout(Apply(s, step), h, fn) && !Arms(s, step, h, fn)
  {
    hide Inv, Apply, Enabled, LiveTimeout, Over, LeavesBehind;
    StepKeeps(s, step);
    StepDecides(s, step, h);
    IssuedIsNoTimeout(s, h, fn);
    IssuedIsNoTimeout(Apply(s, step), h, fn);
  }

  /** What any step makes of any timeout. */
  lemma TimeoutStep(s: State, step: Step, h: Handle, fn: Ref)
    requires Inv(s) && Enabled(s, step)
    ensures LiveTimeout(Apply(s, step), h, fn) <==>
              (LiveTimeout(s, h, fn) && !Disarms(s, step, h)) || Arms(s, step, h, fn)
  {
    hide Inv, Apply, Enabled, Disarms;
    if h in s.hist.issued {
      IssuedStep(s, step, h, fn);
    } else {
      UnissuedIsFree(s, h);
      FreeTimer(s, step, h, fn);
    }
  }

  predicate NotDisarmed(r: Run, i: nat, n: nat, h: Handle)
    requires |r.states| == |r.steps| + 1 && n <= |r.steps|
  {
    forall k | i < k < n :: !Disarms(r.states[k], r.steps[k], h)
  }

  predicate ArmedAt(r: Run, i: nat, h: Handle, fn: Ref)
    requires |r.states| == |r.steps| + 1 && i < |r.steps|
  {
    Arms(r.states[i], r.steps[i], h, fn)
  }

  /**
   In every state of every run a timeout is live with a function if and only if some
   setTimeout gave out its handle for that function, and since then it was not cleared, did
   not fire, and no interrupt pass or shutdown cancelled the timers.
   */
  lemma {:induction false} TimeoutIsLiveExactly(r: Run, n: nat, h: Handle, fn: Ref)
    requires ValidRun(r) && n <= |r.steps|
    ensures LiveTimeout(r.states[n], h, fn) <==>
              exists i | 0 <= i < n :: ArmedAt(r, i, h, fn) && NotDisarmed(r, i, n, h)
  {
    hide Inv, Apply, Enabled, Disarms, Arms;
    if n > 0 {
      TimeoutIsLiveExactly(r, n - 1, h, fn);
      RunKeeps(r, n - 1);
      assert StepAt(r, n - 1);
      var s, step := r.states[n - 1], r.steps[n - 1];
      TimeoutStep(s, step, h, fn);
      assert LiveTimeout(r.states[n], h, fn) <==>
               ArmedAt(r, n - 1, h, fn) || (LiveTimeout(s, h, fn) && !Disarms(s, step, h));
      assert NotDisarmed(r, n - 1, n, h);
      forall i | 0 <= i < n - 1
        ensures NotDisarmed(r, i, n, h) <==> NotDisarmed(r, i, n - 1, h) && !Disarms(s, step, h)
      {}
    }
  }
}
