/** The completion table, exactly: which handler waits for which coroutine. */
module SchedulerAwaits {
  import opened SchedulerState
  import opened SchedulerSteps
  import opened SchedulerInvariant
  import opened SchedulerProgress
  import opened SchedulerUses
  import opened SchedulerRuns

  // A first run of whose end somebody hears.
  predicate HasWaiter(after: After) {
    after.AfterTask? || after.AfterCall? || after.AfterRequire?
  }

  // The script on top yields for the first time, and somebody hears of its end.
  predicate StartsWaiting(s: State, step: Step, co: Co) {
    && step.ScriptEnd? && step.out.Yielded? && ScriptOnTop(s) && Top(s) == co
    && HasWaiter(s.ctl[|s.ctl| - 1].after)
  }

  // Who that is.
  function Waiter(s: State): Handler
    requires ScriptOnTop(s) && HasWaiter(s.ctl[|s.ctl| - 1].after)
  {
    match s.ctl[|s.ctl| - 1].after
    case AfterTask(id) => TaskPromise(id)
    case AfterCall(id) => HostCallback(id)
    case AfterRequire(caller) => RequireDone(s.hist.nextId, caller)
  }

  // The coroutine ends, is cancelled, or every table is emptied.
  predicate StopsWaiting(s: State, step: Step, co: Co) {
    match step
    case ScriptEnd(out) => !out.Yielded? && ScriptOnTop(s) && Top(s) == co
    case HostCancels(c) => c == co
    case HostShutsDown(_) => !s.shuttingDown
    case RunClosure(t, _) => t in s.exec.queue && s.exec.queue[t].InterruptPass? && !s.shuttingDown
    case _ => false
  }

  // --- the operations ---

  lemma ReleaseWaits(s: State, co: Co)
    ensures Release(s, co).completions == s.completions && Release(Purge(s, co), co).completions == s.completions
  {
    hide SetSt, PoolRelease, HandlesOf;
  }

  lemma EnterWaits(s: State, spare: Slot, after: After)
    ensures Enter(s, spare, after).completions == LoadOnly(s, spare).completions == s.completions
  {
    hide SetSt, LuaAcquire, PoolAcquire, PoolRelease;
  }

  lemma RecycleWaits(s: State, co: Co, out: Outcome)
    requires !out.Yielded?
    ensures Recycle(s, co, out).completions == s.completions - {co}
  {
    PurgeWaits(s, co);
    hide Release, Purge, ResultOf;
    var s1 := Purge(s, co);
    if co in s.completions {
      var s2 := s1.(completions := s1.completions - {co});
      ReleaseWaits(s2, co);
      assert PushDeliver(Release(s2, co), s.completions[co], ResultOf(out)).completions == s2.completions;
    } else {
      ReleaseWaits(s1, co);
      assert s.completions == s.completions - {co};
    }
  }

  lemma PurgeWaits(s: State, co: Co)
    ensures Purge(s, co).completions == s.completions
  {
    hide HandlesOf;
  }

  lemma ReturnWaits(s: State, co: Co, id: HandlerId, caller: Handle, out: Outcome)
    ensures TaskReturned(s, co, id, out).completions ==
              if out.Yielded? then s.completions[co := TaskPromise(id)] else s.completions - {co}
    ensures ResumeReturned(s, co, out).completions == if out.Yielded? then s.completions else s.completions - {co}
    ensures CallReturned(s, co, id, out).completions ==
              if out.Yielded? then s.completions[co := HostCallback(id)] else s.completions
    ensures RequireReturned(s, co, caller, out).completions ==
              if out.Yielded? then s.completions[co := RequireDone(s.hist.nextId, caller)] else s.completions
  {
    if !out.Yielded? {
      RecycleWaits(s, co, out);
      RecycleWaits(PutHandler(s, co, TaskPromise(id)), co, out);
      assert s.completions[co := TaskPromise(id)] - {co} == s.completions - {co};
      ReleaseWaits(s, co);
      ReleaseWaits(PushResume(s, caller, RequireArgs(ResultOf(out))), co);
    }
    hide Recycle, Release, Purge, Schedule;
  }

  // The completions after the end of a script.
  lemma EndWaits(s: State, co: Co, after: After, out: Outcome)
    requires s.ctl != [] && s.ctl[|s.ctl| - 1] == Frame(co, after)
    ensures EndScript(s, out).completions ==
              if after.ByScript? then s.completions
              else if StartsWaiting(s, ScriptEnd(out), co) then s.completions[co := Waiter(s)]
              else if out.Yielded? || after.AfterCall? || after.AfterRequire? then s.completions
              else s.completions - {co}
  {
    var s0 := PopFrame(s, out);
    assert s0.completions == s.completions && s0.hist == s.hist by { hide SetSt; }
    EndIs(s, out);
    hide EndScript, TaskReturned, ResumeReturned, CallReturned, RequireReturned, PopFrame;
    match after {
      case AfterTask(id) => ReturnWaits(s0, co, id, 0, out);
      case AfterCall(id) => ReturnWaits(s0, co, id, 0, out);
      case AfterRequire(caller) => ReturnWaits(s0, co, 0, caller, out);
      case _ => ReturnWaits(s0, co, 0, 0, out);
    }
  }

  lemma ClosureWaits(s: State, t: nat, ch: Choice)
    requires Enabled(s, RunClosure(t, ch))
    ensures ApplyClosure(s, t, ch).completions ==
              if s.exec.queue[t].InterruptPass? && !s.shuttingDown then map[] else s.completions
  {
    var s1 := Dequeue(s, t);
    hide RunTask, DoResume, RunRequire, RunLoadFile, RunInterruptPass, RunSleepExpiry, RunTimeoutExpiry;
    match s.exec.queue[t] {
      case Task(_, _) => TaskWaits(s, t, ch.spare, ch.loads);
      case Resume(h, args) => DoResumeWaits(s1, h, args);
      case RequireRun(h) => GatedWaits(s1, h, ch.spare, ch.loads, if ch.args == [] then 0 else ch.args[0], []);
      case LoadFileRun(h) => GatedWaits(s1, h, ch.spare, ch.loads, 0, ch.args);
      case InterruptPass => PassWaits(s1, ch.coOrder, ch.handlerOrder);
      case ClearFlag =>
      case SleepExpiry(h) => SleepWaits(s1, h);
      case TimeoutExpiry(h, fn) => TimeoutWaits(s1, h, fn, ch.spare);
    }
  }

  lemma TaskWaits(s: State, t: nat, spare: Slot, loads: bool)
    requires t in s.exec.queue && s.exec.queue[t].Task?
    ensures RunTask(s, t, spare, loads).completions == s.completions
  {
    EnterWaits(Dequeue(s, t), spare, AfterTask(s.exec.queue[t].id));
    hide Enter, LoadOnly;
  }

  lemma DoResumeWaits(s: State, h: Handle, args: seq<Value>)
    ensures DoResume(s, h, args).completions == s.completions
  {
    if h in s.pending && !SuspendedAt(s.lua, s.pending[h]) {
      ReleaseWaits(Record(s.(pins := s.pins - {h}, pending := s.pending - {h}), NotResumable(h)), s.pending[h]);
    }
    hide Purge, Release, SetSt;
  }

  lemma GatedWaits(s: State, caller: Handle, spare: Slot, loads: bool, message: Value, args: seq<Value>)
    ensures RunRequire(s, caller, spare, loads, message).completions == s.completions
    ensures RunLoadFile(s, caller, spare, args).completions == s.completions
  {
    EnterWaits(s, spare, AfterRequire(caller));
    hide Enter, LoadOnly, Schedule;
  }

  lemma PassWaits(s: State, a: seq<Co>, b: seq<Co>)
    requires Enumerates(a, s.pool.active.Keys) && Enumerates(b, s.completions.Keys)
    ensures RunInterruptPass(s, a, b).completions == if s.shuttingDown then s.completions else map[]
  {
    hide CancelAllLua, ResetAll, PoolReleaseAll, InterruptedItems, PlacesAfterSwap;
  }

  lemma SleepWaits(s: State, h: Handle)
    ensures RunSleepExpiry(s, h).completions == s.completions
  {
    DoResumeWaits(s.(timers := s.timers.(active := s.timers.active - {h})), h, []);
    hide DoResume, Schedule;
  }

  lemma TimeoutWaits(s: State, h: Handle, fn: Ref, spare: Slot)
    ensures RunTimeoutExpiry(s, h, fn, spare).completions == s.completions
  {
    hide SetSt, LuaAcquire, PoolAcquire, Unref;
  }

  lemma HostWaits(s: State, step: Step)
    requires Enabled(s, step) && (step.HostCalls? || step.HostCancels? || step.HostShutsDown?)
    ensures Apply(s, step).completions ==
              match step
              case HostCancels(co) => s.completions - {co}
              case HostShutsDown(_) => if s.shuttingDown then s.completions else map[]
              case _ => s.completions
  {
    match step {
      case HostCalls(spare) => EnterWaits(NewHandlerId(s), spare, AfterCall(s.hist.nextId)); hide Enter;
      case HostCancels(co) => CancelWaits(s, co); hide CancelCall;
      case HostShutsDown(order) => DownWaits(s, order); hide Shutdown;
    }
  }

  lemma CancelWaits(s: State, co: Co)
    ensures CancelCall(s, co).completions == s.completions - {co}
  {
    var s1 := if co in s.completions then
                s.(completions := s.completions - {co},
                   hist := s.hist.(cancelled := s.hist.cancelled + {s.completions[co].id},
                                   place := s.hist.place[s.completions[co].id := Cancelled]))
              else s;
    ReleaseWaits(s1, co);
    assert co !in s.completions ==> s.completions - {co} == s.completions;
    hide Purge, Release;
  }

  lemma DownWaits(s: State, order: seq<Co>)
    requires Enumerates(order, s.completions.Keys)
    ensures Shutdown(s, order).completions == if s.shuttingDown then s.completions else map[]
  {
    hide CancelAllLua, PoolShutdownLua, ShutdownSettlements, PlacesAfterShutdown;
  }

  lemma PostedWaits(s: State, step: Step)
    requires Enabled(s, step) && Posted(step)
    ensures Apply(s, step).completions == s.completions
  {
    hide ApplyClosure, EndScript, HostCall, CancelCall, Shutdown, Park, TimeoutSet, CancelTimer, Created, DeliverTop;
    hide Schedule;
  }

  lemma ScriptWaits(s: State, step: Step)
    requires Enabled(s, step) && (FromScript(step) || step.ScriptPark?)
    ensures Apply(s, step).completions == s.completions
  {
    if step.ScriptPark? { ParkWaits(s, Top(s), step.sleep); }
    hide ApplyClosure, EndScript, HostCall, CancelCall, Shutdown, SetSt, Schedule, CancelTimerLua, DeliverTop;
    hide PushTask, Interrupt, PushResume, PushGated, Park;
  }

  lemma ParkWaits(s: State, co: Co, sleep: bool)
    ensures Park(s, co, sleep).completions == s.completions
  {
    hide Schedule;
  }

  lemma OtherWaits(s: State, step: Step)
    requires Enabled(s, step) && (Posted(step) || FromScript(step) || step.ScriptPark? || step.RunHandler?)
    ensures Apply(s, step).completions == s.completions
  {
    if step.RunHandler? {
      HandlerWaits(s);
      hide DeliverTop;
    } else if Posted(step) {
      PostedWaits(s, step);
      hide Apply;
    } else {
      ScriptWaits(s, step);
      hide Apply;
    }
  }

  lemma HandlerWaits(s: State)
    requires s.ctl != [] && s.ctl[|s.ctl| - 1].Deliver?
    ensures DeliverTop(s).completions == s.completions
  {
    var Deliver(hd, r) := s.ctl[|s.ctl| - 1];
    SettleWaits(s.(ctl := s.ctl[..|s.ctl| - 1]), hd.id, r);
    hide Schedule, RequireArgs, Settle;
  }

  lemma SettleWaits(s: State, id: HandlerId, r: Result)
    ensures Settle(s, id, r).completions == s.completions
  {
  }

  // --- one step, one coroutine ---

  predicate WaitsNext(s: State, step: Step, s1: State, co: Co) {
    if StartsWaiting(s, step, co) then co in s1.completions && s1.completions[co] == Waiter(s)
    else
      && (co in s1.completions <==> co in s.completions && !StopsWaiting(s, step, co))
      && (co in s1.completions ==> s1.completions[co] == s.completions[co])
  }

  /**
   A handler waits for a coroutine from its first yield until it ends, is cancelled, or an
   interrupt pass or a shutdown empties the table.
   */
  lemma AwaitStep(s: State, step: Step, co: Co)
    requires Inv(s) && Enabled(s, step)
    ensures WaitsNext(s, step, Apply(s, step), co)
  {
    hide PlaceInv, Core;
    if step.ScriptEnd? {
      TopIsKnown(s);
      EndWaits(s, Top(s), s.ctl[|s.ctl| - 1].after, step.out);
      hide EndScript;
    } else if step.RunClosure? {
      ClosureWaits(s, step.t, step.choice);
      hide ApplyClosure;
    } else if step.HostCalls? || step.HostCancels? || step.HostShutsDown? {
      HostWaits(s, step);
      hide Apply;
    } else {
      OtherWaits(s, step);
      hide Apply;
    }
  }

  // --- whole runs ---

  predicate WaitsSince(r: Run, n: nat, co: Co, hd: Handler)
    requires |r.states| == |r.steps| + 1 && n <= |r.steps|
  {
    exists i | 0 <= i < n ::
      && StartsWaiting(r.states[i], r.steps[i], co) && Waiter(r.states[i]) == hd
      && !DisturbedIn(r, i + 1, n, co)
  }

  predicate DisturbedIn(r: Run, i: nat, j: nat, co: Co)
    requires |r.states| == |r.steps| + 1 && j <= |r.steps|
  {
    exists k | i <= k < j :: Disturbs(r.states[k], r.steps[k], co)
  }

  predicate Disturbs(s: State, step: Step, co: Co) {
    StopsWaiting(s, step, co) || StartsWaiting(s, step, co)
  }

  lemma DisturbedNext(r: Run, i: nat, j: nat, co: Co)
    requires |r.states| == |r.steps| + 1 && i < j <= |r.steps|
    ensures DisturbedIn(r, i, j, co) <==> DisturbedIn(r, i, j - 1, co) || Disturbs(r.states[j - 1], r.steps[j - 1], co)
  {
    hide Disturbs;
    if DisturbedIn(r, i, j, co) {
      var k :| i <= k < j && Disturbs(r.states[k], r.steps[k], co);
      assert k < j - 1 || k == j - 1;
    }
  }

  lemma WaitsSinceNext(r: Run, n: nat, co: Co, hd: Handler)
    requires |r.states| == |r.steps| + 1 && 0 < n <= |r.steps|
    ensures var s, step := r.states[n - 1], r.steps[n - 1];
            WaitsSince(r, n, co, hd) <==>
              if StartsWaiting(s, step, co) then Waiter(s) == hd
              else WaitsSince(r, n - 1, co, hd) && !StopsWaiting(s, step, co)
  {
    var s, step := r.states[n - 1], r.steps[n - 1];
    hide StartsWaiting, StopsWaiting, Waiter;
    if WaitsSince(r, n, co, hd) {
      var i :| 0 <= i < n && StartsWaiting(r.states[i], r.steps[i], co) && Waiter(r.states[i]) == hd
               && !DisturbedIn(r, i + 1, n, co);
      if i < n - 1 { DisturbedNext(r, i + 1, n, co); }
    }
    if StartsWaiting(s, step, co) && Waiter(s) == hd { assert !DisturbedIn(r, n, n, co); }
    if WaitsSince(r, n - 1, co, hd) && !Disturbs(s, step, co) {
      var i :| 0 <= i < n - 1 && StartsWaiting(r.states[i], r.steps[i], co) && Waiter(r.states[i]) == hd
               && !DisturbedIn(r, i + 1, n - 1, co);
      DisturbedNext(r, i + 1, n, co);
    }
  }

  /** In every state of every run, exactly these handlers wait. */
  lemma {:induction false} AwaitedExactly(r: Run, n: nat, co: Co, hd: Handler)
    requires ValidRun(r) && n <= |r.steps|
    ensures co in r.states[n].completions && r.states[n].completions[co] == hd <==> WaitsSince(r, n, co, hd)
  {
    hide Inv, Apply, Enabled, StartsWaiting, StopsWaiting, Waiter;
    if n > 0 {
      AwaitedExactly(r, n - 1, co, hd);
      RunKeeps(r, n - 1);
      assert StepAt(r, n - 1);
      AwaitStep(r.states[n - 1], r.steps[n - 1], co);
      WaitsSinceNext(r, n, co, hd);
      hide WaitsSince;
    }
  }
}
