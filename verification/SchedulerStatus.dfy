/** Which coroutines are checked out, and what the status of a script's own coroutine is, exactly. */
module SchedulerStatus {
  import opened SchedulerState
  import opened Wrappers
  import opened SchedulerSteps
  import opened SchedulerInvariant
  import opened SchedulerKeeps
  import opened SchedulerProgress
  import opened SchedulerUses
  import opened SchedulerRuns
  import opened SchedulerQueue
  import opened SchedulerParks
  import opened SchedulerAwaits
  import opened SchedulerStarts

  // --- who is checked out ---

  // The step enters new work on this coroutine.
  predicate TakenOut(s: State, step: Step, s1: State, co: Co) {
    && Started(s, step).Some? && FirstRun(Started(s, step).value)
    && s1.ctl == s.ctl + [Frame(co, Started(s, step).value)]
  }

  predicate TakesOut(s: State, step: Step) {
    Started(s, step).Some? && FirstRun(Started(s, step).value)
  }

  lemma EnterOut(s: State, spare: Slot, after: After)
    ensures Enter(s, spare, after).pool.active.Keys == s.pool.active.Keys + {AcquiredCo(s.pool, spare)}
  {
    hide LuaAcquire, SetSt;
  }

  lemma LoadOnlyOut(s: State, spare: Slot)
    requires SpareKnown(s, spare)
    ensures LoadOnly(s, spare).pool.active.Keys == s.pool.active.Keys
  {
    assert LoadOnly(s, spare).pool == PoolRelease(PoolAcquire(s.pool, spare), AcquiredCo(s.pool, spare)) by {
      hide LuaAcquire, SetSt, PoolAcquire;
    }
    hide LoadOnly;
  }

  lemma TaskOut(s: State, t: nat, ch: Choice)
    requires t in s.exec.queue && s.exec.queue[t].Task? && SpareKnown(s, ch.spare)
    ensures RunTask(s, t, ch.spare, ch.loads).pool.active.Keys ==
              if Open(s) && (s.exec.queue[t].kind.CallRef? || ch.loads)
              then s.pool.active.Keys + {AcquiredCo(s.pool, ch.spare)} else s.pool.active.Keys
  {
    var s1 := Dequeue(s, t);
    assert SpareKnown(s1, ch.spare);
    EnterOut(s1, ch.spare, AfterTask(s.exec.queue[t].id));
    LoadOnlyOut(s1, ch.spare);
    hide Enter, LoadOnly, SpareKnown;
  }

  lemma RequireOut(s: State, caller: Handle, spare: Slot, loads: bool, message: Value, args: seq<Value>)
    requires SpareKnown(s, spare)
    ensures RunRequire(s, caller, spare, loads, message).pool.active.Keys ==
              if Open(s) && loads then s.pool.active.Keys + {AcquiredCo(s.pool, spare)} else s.pool.active.Keys
    ensures RunLoadFile(s, caller, spare, args).pool.active.Keys == s.pool.active.Keys
  {
    EnterOut(s, spare, AfterRequire(caller));
    LoadOnlyOut(s, spare);
    hide Enter, LoadOnly, Schedule, SpareKnown;
  }

  lemma TimeoutOut(s: State, h: Handle, fn: Ref, spare: Slot)
    ensures RunTimeoutExpiry(s, h, fn, spare).pool.active.Keys ==
              if h in s.timers.active then s.pool.active.Keys + {AcquiredCo(s.pool, spare)} else s.pool.active.Keys
  {
    hide LuaAcquire, SetSt, Unref;
  }

  lemma DoResumeOut(s: State, h: Handle, args: seq<Value>)
    requires h in s.pending && !SuspendedAt(s.lua, s.pending[h]) ==> s.pending[h] !in s.pool.active
    ensures DoResume(s, h, args).pool.active.Keys == s.pool.active.Keys
  {
    if h in s.pending && !SuspendedAt(s.lua, s.pending[h]) {
      ReleaseOut(Record(s.(pins := s.pins - {h}, pending := s.pending - {h}), NotResumable(h)), s.pending[h]);
    }
    hide Purge, Release, SetSt;
  }

  lemma PassOut(s: State, a: seq<Co>, b: seq<Co>)
    requires Enumerates(a, s.pool.active.Keys) && Enumerates(b, s.completions.Keys)
    ensures RunInterruptPass(s, a, b).pool.active.Keys == if s.shuttingDown then s.pool.active.Keys else {}
  {
    hide CancelAllLua, ResetAll, InterruptedItems, PlacesAfterSwap, Slots;
  }

  // Between closures whoever is checked out is suspended.
  lemma OutSleeps(s: State, co: Co)
    requires Core(s) && s.ctl == [] && co in s.pool.active
    ensures SuspendedAt(s.lua, co)
  {
    NobodyRuns(s, co);
    Split(s);
    hide Core, Machine, Handles, Timing, CtlInv, KeyInv, ClosedInv, PendInv, ResumeInv, CallerInv, ArmedInv, TimerInv;
  }

  lemma WakeOut(s: State, t: nat, ch: Choice)
    requires Core(s) && Enabled(s, RunClosure(t, ch)) && (s.exec.queue[t].Resume? || s.exec.queue[t].SleepExpiry?)
    ensures ApplyClosure(s, t, ch).pool.active.Keys == s.pool.active.Keys
  {
    var s1, w := Dequeue(s, t), s.exec.queue[t].h;
    if w in s.pending && s.pending[w] in s.pool.active { OutSleeps(s, s.pending[w]); }
    hide Core, DoResume;
    if s.exec.queue[t].Resume? {
      DoResumeOut(s1, w, s.exec.queue[t].args);
    } else {
      DoResumeOut(s1.(timers := s1.timers.(active := s1.timers.active - {w})), w, []);
    }
    hide Schedule;
  }

  // What the closure of this ticket makes of the coroutines that are checked out.
  function OutOf(s: State, t: nat, ch: Choice): set<Co>
    requires t in s.exec.queue
  {
    if TakesOut(s, RunClosure(t, ch)) then s.pool.active.Keys + {AcquiredCo(s.pool, ch.spare)}
    else if s.exec.queue[t].InterruptPass? && !s.shuttingDown then {}
    else s.pool.active.Keys
  }

  lemma EntryOut(s: State, t: nat, ch: Choice)
    requires Enabled(s, RunClosure(t, ch)) && SpareKnown(s, ch.spare)
    requires !s.exec.queue[t].Resume? && !s.exec.queue[t].SleepExpiry?
    ensures ApplyClosure(s, t, ch).pool.active.Keys == OutOf(s, t, ch)
  {
    var s1 := Dequeue(s, t);
    assert SpareKnown(s1, ch.spare) && s1.pool == s.pool && s1.timers == s.timers && (Open(s1) <==> Open(s));
    hide SpareKnown, RunTask, RunRequire, RunLoadFile, RunInterruptPass, RunTimeoutExpiry, DoResume, RunSleepExpiry;
    hide WakeUp, Open;
    match s.exec.queue[t] {
      case Task(_, _) => TaskOut(s, t, ch);
      case RequireRun(c) => RequireOut(s1, c, ch.spare, ch.loads, if ch.args == [] then 0 else ch.args[0], []);
      case LoadFileRun(c) => RequireOut(s1, c, ch.spare, ch.loads, 0, ch.args);
      case InterruptPass => PassOut(s1, ch.coOrder, ch.handlerOrder);
      case ClearFlag =>
      case TimeoutExpiry(h, fn) => TimeoutOut(s1, h, fn, ch.spare);
    }
  }

  lemma WakeTakesNone(s: State, t: nat, ch: Choice)
    requires t in s.exec.queue && (s.exec.queue[t].Resume? || s.exec.queue[t].SleepExpiry?)
    ensures OutOf(s, t, ch) == s.pool.active.Keys
  {}

  lemma ClosureOut(s: State, t: nat, ch: Choice)
    requires Core(s) && Enabled(s, RunClosure(t, ch))
    ensures ApplyClosure(s, t, ch).pool.active.Keys == OutOf(s, t, ch)
  {
    hide Core, SpareKnown, ApplyClosure, OutOf;
    if s.exec.queue[t].Resume? || s.exec.queue[t].SleepExpiry? {
      WakeOut(s, t, ch);
      WakeTakesNone(s, t, ch);
    } else {
      SpareIsKnown(s, ch.spare);
      EntryOut(s, t, ch);
    }
  }

  // --- the end of a script ---

  lemma ReleaseOut(s: State, co: Co)
    ensures Release(s, co).pool.active.Keys == s.pool.active.Keys - {co}
    ensures Release(Purge(s, co), co).pool.active.Keys == s.pool.active.Keys - {co}
  {
    hide SetSt, HandlesOf;
  }

  lemma RecycleOut(s: State, co: Co, out: Outcome)
    requires !out.Yielded?
    ensures Recycle(s, co, out).pool.active.Keys == s.pool.active.Keys - {co}
  {
    var s1 := Purge(s, co);
    assert s1.pool == s.pool by { hide HandlesOf; }
    ReleaseOut(s1, co);
    ReleaseOut(s1.(completions := s1.completions - {co}), co);
    hide Release, Purge, ResultOf;
  }

  lemma ReturnOut(s: State, co: Co, id: HandlerId, caller: Handle, out: Outcome)
    ensures var keys := if out.Yielded? then s.pool.active.Keys else s.pool.active.Keys - {co};
            && TaskReturned(s, co, id, out).pool.active.Keys == keys
            && ResumeReturned(s, co, out).pool.active.Keys == keys
            && CallReturned(s, co, id, out).pool.active.Keys == keys
            && RequireReturned(s, co, caller, out).pool.active.Keys == keys
  {
    if !out.Yielded? {
      RecycleOut(s, co, out);
      RecycleOut(PutHandler(s, co, TaskPromise(id)), co, out);
      ReleaseOut(s, co);
      ReleaseOut(PushResume(s, caller, RequireArgs(ResultOf(out))), co);
    }
    hide Recycle, Release, Purge, Schedule;
  }

  lemma EndOut(s: State, out: Outcome)
    requires TopKnown(s)
    ensures EndScript(s, out).pool.active.Keys ==
              if out.Yielded? then s.pool.active.Keys else s.pool.active.Keys - {Top(s)}
  {
    var Frame(co, after) := s.ctl[|s.ctl| - 1];
    EndIs(s, out);
    assert PopFrame(s, out).pool == s.pool by { hide SetSt; }
    assert after.ByScript? ==> co !in s.pool.active;
    hide TopKnown, EndScript, TaskReturned, ResumeReturned, CallReturned, RequireReturned, PopFrame;
    var s0, keys := PopFrame(s, out), s.pool.active.Keys;
    assert after.ByScript? ==> keys == keys - {co};
    match after {
      case AfterTask(id) => ReturnOut(s0, co, id, 0, out);
      case AfterCall(id) => ReturnOut(s0, co, id, 0, out);
      case AfterRequire(caller) => ReturnOut(s0, co, 0, caller, out);
      case _ => ReturnOut(s0, co, 0, 0, out);
    }
  }

  // --- every step ---

  lemma CancelOut(s: State, co: Co)
    ensures CancelCall(s, co).pool.active.Keys == s.pool.active.Keys - {co}
  {
    var s1 := if co in s.completions then
                s.(completions := s.completions - {co},
                   hist := s.hist.(cancelled := s.hist.cancelled + {s.completions[co].id},
                                   place := s.hist.place[s.completions[co].id := Cancelled]))
              else s;
    ReleaseOut(s1, co);
    hide Purge, Release;
  }

  lemma DownOut(s: State, order: seq<Co>)
    requires Enumerates(order, s.completions.Keys)
    ensures Shutdown(s, order).pool.active.Keys == if s.shuttingDown then s.pool.active.Keys else {}
  {
    hide CancelAllLua, PoolShutdownLua, ShutdownSettlements, PlacesAfterShutdown;
  }

  lemma QuietOut(s: State, step: Step)
    requires Enabled(s, step) && (Posted(step) || step.RunHandler? || step.ScriptPark? || FromScript(step))
    ensures Apply(s, step).pool == s.pool
  {
    if step.RunHandler? { DeliverOut(s); hide DeliverTop; }
    if step.ScriptPark? { ParkOut(s, Top(s), step.sleep); hide Park; }
    hide ApplyClosure, EndScript, HostCall, CancelCall, Shutdown, SetSt, Schedule, CancelTimerLua;
  }

  lemma DeliverOut(s: State)
    requires s.ctl != [] && s.ctl[|s.ctl| - 1].Deliver?
    ensures DeliverTop(s).pool == s.pool
  {
    hide RequireArgs, Schedule;
  }

  lemma ParkOut(s: State, co: Co, sleep: bool)
    ensures Park(s, co, sleep).pool == s.pool
  {
    hide Schedule;
  }

  // The coroutines that are checked out after a step.
  lemma OutAfter(s: State, step: Step, co: Co)
    requires Inv(s) && Enabled(s, step)
    ensures co in Apply(s, step).pool.active <==>
              (co in s.pool.active && !StopsWaiting(s, step, co))
              || (TakesOut(s, step) && co == AcquiredCo(s.pool, SpareOf(step)))
  {
    hide PlaceInv, Core, TopKnown;
    if step.RunClosure? {
      ClosureOut(s, step.t, step.choice);
      hide ApplyClosure;
    } else if step.ScriptEnd? {
      TopIsKnown(s);
      EndOut(s, step.out);
      hide EndScript;
    } else if step.HostCalls? {
      EnterOut(NewHandlerId(s), step.spare, AfterCall(s.hist.nextId));
      hide Enter;
    } else if step.HostCancels? {
      CancelOut(s, step.co);
      hide CancelCall;
    } else if step.HostShutsDown? {
      DownOut(s, step.order);
      hide Shutdown;
    } else {
      QuietOut(s, step);
      hide Apply;
    }
  }

  function SpareOf(step: Step): Slot {
    match step
    case RunClosure(_, ch) => ch.spare
    case HostCalls(spare) => spare
    case _ => Slot(0, 0)
  }

  /**
   A coroutine is checked out by new work that is entered on it, and until it ends, its call is
   cancelled, or an interrupt pass or a shutdown takes everything back.
   */
  lemma OutStep(s: State, step: Step, co: Co)
    requires Inv(s) && Enabled(s, step)
    ensures co in Apply(s, step).pool.active <==>
              (co in s.pool.active && !StopsWaiting(s, step, co)) || TakenOut(s, step, Apply(s, step), co)
  {
    OutAfter(s, step, co);
    StartStep(s, step);
    hide Inv, Apply, Enabled, Started, StopsWaiting;
    if TakesOut(s, step) {
      NewIsAcquired(s, step, co);
    }
  }

  lemma NewIsAcquired(s: State, step: Step, co: Co)
    requires Inv(s) && Enabled(s, step) && TakesOut(s, step)
    ensures TakenOut(s, step, Apply(s, step), co) <==> co == AcquiredCo(s.pool, SpareOf(step))
  {
    StartStep(s, step);
    hide Inv, Apply, Enabled, StopsWaiting, TakesOut;
    var s1, after := Apply(s, step), Started(s, step).value;
    var c :| s1.ctl == s.ctl + [Frame(c, after)] && Enters(s, step, s1, c);
    EntersNew(s, step, s1, c);
    OutAfter(s, step, c);
    hide Started, Enters, NewlyOut;
    assert s1.ctl[|s.ctl|] == Frame(c, after);
  }

  lemma EntersNew(s: State, step: Step, s1: State, c: Co)
    requires TakesOut(s, step) && Enters(s, step, s1, c)
    ensures c in s1.pool.active && c !in s.pool.active
  {
    hide Open;
  }

  // The coroutine was taken out by this step of the run.
  predicate TakenAt(r: Run, i: nat, co: Co)
    requires |r.states| == |r.steps| + 1 && i < |r.steps|
  {
    TakenOut(r.states[i], r.steps[i], r.states[i + 1], co)
  }

  predicate NotBack(r: Run, i: nat, n: nat, co: Co)
    requires |r.states| == |r.steps| + 1 && n <= |r.steps|
  {
    forall k | i < k < n :: !StopsWaiting(r.states[k], r.steps[k], co)
  }

  /**
   In every state of every run a coroutine is checked out if and only if new work was entered
   on it, and since then it did not end, its call was not cancelled, and no interrupt pass or
   shutdown took it back.
   */
  lemma {:induction false} CheckedOutExactly(r: Run, n: nat, co: Co)
    requires ValidRun(r) && n <= |r.steps|
    ensures co in r.states[n].pool.active <==> exists i | 0 <= i < n :: TakenAt(r, i, co) && NotBack(r, i, n, co)
  {
    hide Inv, Apply, Enabled, StopsWaiting, TakenOut;
    if n > 0 {
      CheckedOutExactly(r, n - 1, co);
      RunKeeps(r, n - 1);
      assert StepAt(r, n - 1);
      var s, step := r.states[n - 1], r.steps[n - 1];
      OutStep(s, step, co);
      assert co in r.states[n].pool.active <==>
               TakenAt(r, n - 1, co) || (co in s.pool.active && !StopsWaiting(s, step, co));
      assert NotBack(r, n - 1, n, co);
      forall i | 0 <= i < n - 1
        ensures NotBack(r, i, n, co) <==> NotBack(r, i, n - 1, co) && !StopsWaiting(s, step, co)
      {}
    }
  }

  // --- coroutines of scripts ---

  predicate OfAScript(cos: Cos, co: Co) {
    co in cos && cos[co].kind.Script?
  }

  // The operation neither makes nor touches it.
  predicate Kept(cos: Cos, cos1: Cos, co: Co) {
    if OfAScript(cos, co) then co in cos1 && cos1[co] == cos[co] else !OfAScript(cos1, co)
  }

  predicate NotPooled(s: State, co: Co) {
    OfAScript(s.lua.cos, co) ==> co !in s.pool.active
  }

  lemma StaysKept(cos: Cos, co: Co)
    ensures Kept(cos, cos, co)
  {}

  lemma EnterKept(s: State, spare: Slot, after: After, co: Co)
    requires SpareKnown(s, spare)
    ensures Kept(s.lua.cos, Enter(s, spare, after).lua.cos, co)
  {}

  lemma LoadOnlyKept(s: State, spare: Slot, co: Co)
    requires SpareKnown(s, spare)
    ensures Kept(s.lua.cos, LoadOnly(s, spare).lua.cos, co)
  {
    LoadOnlyIsAlike(s, spare);
    hide LoadOnly;
  }

  lemma TaskKept(s: State, t: nat, spare: Slot, loads: bool, co: Co)
    requires t in s.exec.queue && s.exec.queue[t].Task? && SpareKnown(s, spare)
    ensures Kept(s.lua.cos, RunTask(s, t, spare, loads).lua.cos, co)
  {
    var s1 := Dequeue(s, t);
    StaysKept(s.lua.cos, co);
    hide Enter, LoadOnly, Kept;
    EnterKept(s1, spare, AfterTask(s.exec.queue[t].id), co);
    LoadOnlyKept(s1, spare, co);
    hide SpareKnown;
  }

  lemma RequireKept(s: State, caller: Handle, spare: Slot, loads: bool, message: Value, args: seq<Value>, co: Co)
    requires SpareKnown(s, spare)
    ensures Kept(s.lua.cos, RunRequire(s, caller, spare, loads, message).lua.cos, co)
    ensures Kept(s.lua.cos, RunLoadFile(s, caller, spare, args).lua.cos, co)
  {
    StaysKept(s.lua.cos, co);
    hide Enter, LoadOnly, Kept, Schedule;
    EnterKept(s, spare, AfterRequire(caller), co);
    LoadOnlyKept(s, spare, co);
    hide SpareKnown;
  }

  lemma TimeoutKept(s: State, h: Handle, fn: Ref, spare: Slot, co: Co)
    requires SpareKnown(s, spare)
    ensures Kept(s.lua.cos, RunTimeoutExpiry(s, h, fn, spare).lua.cos, co)
  {
    StaysKept(s.lua.cos, co);
    EnterKept(s, spare, AfterTimeout, co);
    TimeoutCos(s, h, fn, spare);
    assert h !in s.timers.active ==> RunTimeoutExpiry(s, h, fn, spare) == s;
    hide RunTimeoutExpiry, Enter, Kept, SpareKnown;
  }

  lemma PassKept(s: State, a: seq<Co>, b: seq<Co>, co: Co)
    requires Enumerates(a, s.pool.active.Keys) && Enumerates(b, s.completions.Keys) && NotPooled(s, co)
    ensures Kept(s.lua.cos, RunInterruptPass(s, a, b).lua.cos, co)
  {
    hide PoolReleaseAll, InterruptedItems, PlacesAfterSwap;
  }

  lemma ClosureKept(s: State, t: nat, ch: Choice, co: Co)
    requires Enabled(s, RunClosure(t, ch)) && SpareKnown(s, ch.spare) && NotPooled(s, co)
    requires !s.exec.queue[t].Resume? && !s.exec.queue[t].SleepExpiry?
    ensures Kept(s.lua.cos, ApplyClosure(s, t, ch).lua.cos, co)
  {
    var s1 := Dequeue(s, t);
    assert SpareKnown(s1, ch.spare) && s1.lua == s.lua;
    StaysKept(s.lua.cos, co);
    hide RunTask, DoResume, RunRequire, RunLoadFile, RunInterruptPass, RunSleepExpiry, RunTimeoutExpiry;
    hide Kept, SpareKnown;
    match s.exec.queue[t] {
      case Task(_, _) => TaskKept(s, t, ch.spare, ch.loads, co);
      case RequireRun(caller) =>
        RequireKept(s1, caller, ch.spare, ch.loads, if ch.args == [] then 0 else ch.args[0], [], co);
      case LoadFileRun(caller) => RequireKept(s1, caller, ch.spare, ch.loads, 0, ch.args, co);
      case InterruptPass => PassKept(s1, ch.coOrder, ch.handlerOrder, co);
      case ClearFlag =>
      case TimeoutExpiry(h, fn) => TimeoutKept(s1, h, fn, ch.spare, co);
    }
  }

  // --- one step of a script's coroutine ---

  // The status after the step, from the one before.
  function StatusAfter(s: State, step: Step, co: Co, st: CoState): CoState {
    if step == ScriptClose(co) then Dead
    else if Ends(s, step, co) then (if step.out.Yielded? then Suspended(step.out.loc) else Dead)
    else if step == ScriptResume(co) || WakesCo(s, step, co) then Running(|s.ctl|)
    else st
  }

  predicate StatusNext(s: State, step: Step, s1: State, co: Co) {
    if step == ScriptCreate(co) then co in s1.lua.cos && s1.lua.cos[co] == CoRec(s.lua.nextEpoch, Fresh, Script)
    else if step == Collect(co) || !OfAScript(s.lua.cos, co) then !OfAScript(s1.lua.cos, co)
    else
      var rec := s.lua.cos[co];
      co in s1.lua.cos && s1.lua.cos[co] == rec.(st := StatusAfter(s, step, co, rec.st))
  }

  lemma KeptIsNext(s: State, step: Step, s1: State, co: Co)
    requires Kept(s.lua.cos, s1.lua.cos, co) && step != Collect(co) && step != ScriptCreate(co)
    requires step != ScriptClose(co) && !Ends(s, step, co) && !WakesCo(s, step, co) && step != ScriptResume(co)
    ensures StatusNext(s, step, s1, co)
  {
    hide WakesCo;
  }

  lemma DoResumeStatus(s: State, w: Handle, args: seq<Value>, co: Co)
    requires NotPooled(s, co)
    ensures var cos1 := DoResume(s, w, args).lua.cos;
            if OfAScript(s.lua.cos, co) then
              var woken := w in s.pending && s.pending[w] == co && SuspendedAt(s.lua, co);
              && co in cos1
              && cos1[co] == s.lua.cos[co].(st := if woken then Running(|s.ctl|) else s.lua.cos[co].st)
            else !OfAScript(cos1, co)
  {
    DoResumeLua(s, w, args);
    hide DoResume;
  }

  lemma WakesWhen(s: State, t: nat, ch: Choice, co: Co)
    requires t in s.exec.queue && (s.exec.queue[t].Resume? || s.exec.queue[t].SleepExpiry?)
    ensures var w := s.exec.queue[t].h;
            WakesCo(s, RunClosure(t, ch), co) <==>
              && w in s.pending && s.pending[w] == co && SuspendedAt(s.lua, co)
              && if s.exec.queue[t].Resume? then !s.shuttingDown else w in s.timers.active && !s.paused
  {}

  lemma WakeStatus(s: State, t: nat, ch: Choice, co: Co)
    requires Enabled(s, RunClosure(t, ch)) && (s.exec.queue[t].Resume? || s.exec.queue[t].SleepExpiry?)
    requires NotPooled(s, co)
    ensures StatusNext(s, RunClosure(t, ch), ApplyClosure(s, t, ch), co)
  {
    var s1, w := Dequeue(s, t), s.exec.queue[t].h;
    WakesWhen(s, t, ch, co);
    hide DoResume, Schedule, WakesCo;
    if s.exec.queue[t].Resume? {
      DoResumeStatus(s1, w, s.exec.queue[t].args, co);
    } else {
      DoResumeStatus(s1.(timers := s1.timers.(active := s1.timers.active - {w})), w, [], co);
    }
  }

  lemma EndStatus(s: State, out: Outcome, co: Co)
    requires TopKnown(s)
    ensures StatusNext(s, ScriptEnd(out), EndScript(s, out), co)
  {
    EndLua(s, Top(s), s.ctl[|s.ctl| - 1].after, out);
    assert !WakesCo(s, ScriptEnd(out), co);
    hide EndScript, WakesCo, LuaAfter, SetSt;
    EndCos(s.lua, EndScript(s, out).lua, Top(s), out, !out.Yielded? && Top(s) in s.pool.active, co);
    hide PopFrame;
  }

  lemma ScriptStatus(s: State, step: Step, co: Co)
    requires TopKnown(s) && Enabled(s, step) && FromScript(step) && !step.Collect?
    ensures StatusNext(s, step, Apply(s, step), co)
  {
    hide Schedule, EndScript, ApplyClosure, HostCall, CancelCall, Shutdown, DeliverTop, Park, Interrupt;
    hide TimeoutSet, CancelTimer;
    match step {
      case ScriptSetTimeout(fn) => ParkCos(s, co, false, fn, 0);
      case ScriptClearTimeout(h) => ParkCos(s, co, false, 0, h);
      case ScriptCreate(_) =>
      case ScriptResume(_) =>
      case ScriptClose(_) =>
      case ScriptRuns =>
    }
  }

  lemma HostKept(s: State, step: Step, co: Co)
    requires Core(s) && Enabled(s, step) && NotPooled(s, co)
    requires step.HostCalls? || step.HostCancels? || step.HostShutsDown?
    ensures Kept(s.lua.cos, Apply(s, step).lua.cos, co)
  {
    hide Core, Kept, Enter, NotPooled;
    if step.HostCalls? {
      SpareIsKnown(s, step.spare);
      EnterKept(NewHandlerId(s), step.spare, AfterCall(s.hist.nextId), co);
    } else if step.HostCancels? {
      CancelKept(s, step.co, co);
      hide CancelCall;
    } else {
      DownKept(s, step.order, co);
      hide Shutdown;
    }
  }

  lemma CancelKept(s: State, c: Co, co: Co)
    requires NotPooled(s, co)
    ensures Kept(s.lua.cos, CancelCall(s, c).lua.cos, co)
  {
    CancelLua(s, c);
    hide CancelCall;
  }

  lemma DownKept(s: State, order: seq<Co>, co: Co)
    requires Enumerates(order, s.completions.Keys)
    ensures Kept(s.lua.cos, Shutdown(s, order).lua.cos, co)
  {
    hide ShutdownSettlements, PlacesAfterShutdown;
  }

  // The pool holds none of them.
  lemma PoolHasNone(s: State, co: Co)
    requires Core(s)
    ensures NotPooled(s, co)
  {
    Split(s);
    hide Core, Machine, Handles, Timing, CtlInv, KeyInv, ClosedInv, PendInv, ResumeInv, CallerInv, ArmedInv, TimerInv;
  }

  lemma ClosureStatus(s: State, t: nat, ch: Choice, co: Co)
    requires Core(s) && Enabled(s, RunClosure(t, ch))
    ensures StatusNext(s, RunClosure(t, ch), ApplyClosure(s, t, ch), co)
  {
    PoolHasNone(s, co);
    hide Core, ApplyClosure, NotPooled, StatusNext, SpareKnown;
    if s.exec.queue[t].Resume? || s.exec.queue[t].SleepExpiry? {
      WakeStatus(s, t, ch, co);
    } else {
      SpareIsKnown(s, ch.spare);
      ClosureKept(s, t, ch, co);
      hide Kept;
      KeptIsNext(s, RunClosure(t, ch), ApplyClosure(s, t, ch), co);
    }
  }

  lemma CollectStatus(s: State, c: Co, co: Co)
    ensures StatusNext(s, Collect(c), s.(lua := s.lua.(cos := s.lua.cos - {c})), co)
  {}

  lemma SameStatus(s: State, step: Step, co: Co)
    requires Enabled(s, step) && (Posted(step) || step.RunHandler? || step.ScriptPark?)
    ensures StatusNext(s, step, Apply(s, step), co)
  {
    if step.ScriptPark? { ParkCos(s, Top(s), step.sleep, 0, 0); hide Park; } else { PostedCos(s, step); }
    StaysKept(s.lua.cos, co);
    hide Apply, Kept, StatusNext;
    KeptIsNext(s, step, Apply(s, step), co);
  }

  /** What a step makes of any coroutine of a script, and that only `coroutine.create` makes one. */
  lemma StatusStep(s: State, step: Step, co: Co)
    requires Inv(s) && Enabled(s, step)
    ensures StatusNext(s, step, Apply(s, step), co)
  {
    hide PlaceInv, Core, TopKnown, StatusNext;
    if step.RunClosure? {
      ClosureStatus(s, step.t, step.choice, co);
      hide ApplyClosure;
    } else if step.ScriptEnd? {
      TopIsKnown(s);
      EndStatus(s, step.out, co);
      hide EndScript;
    } else if step.Collect? {
      CollectStatus(s, step.co, co);
    } else if FromScript(step) {
      TopIsKnown(s);
      ScriptStatus(s, step, co);
      hide Apply;
    } else if step.HostCalls? || step.HostCancels? || step.HostShutsDown? {
      PoolHasNone(s, co);
      HostKept(s, step, co);
      hide Apply, Kept;
      KeptIsNext(s, step, Apply(s, step), co);
    } else {
      SameStatus(s, step, co);
      hide Apply;
    }
  }

  // What the steps so far made of a coroutine of a script; none if it does not exist.
  ghost function Standing(r: Run, n: nat, co: Co): Option<CoState>
    requires |r.states| == |r.steps| + 1 && n <= |r.steps|
  {
    if n == 0 then None else
    var s, step, before := r.states[n - 1], r.steps[n - 1], Standing(r, n - 1, co);
    if step == ScriptCreate(co) then Some(Fresh)
    else if step == Collect(co) || before.None? then None
    else Some(StatusAfter(s, step, co, before.value))
  }

  /**
   In every state of every run a script's coroutine exists if and only if it was created and not
   collected since, and its status is what the script and its own wake-ups made of it: nothing
   else suspends, resumes, ends or revives it.
   */
  lemma {:induction false} StandingExactly(r: Run, n: nat, co: Co)
    requires ValidRun(r) && n <= |r.steps|
    ensures OfAScript(r.states[n].lua.cos, co) <==> Standing(r, n, co).Some?
    ensures OfAScript(r.states[n].lua.cos, co) ==> Standing(r, n, co) == Some(r.states[n].lua.cos[co].st)
  {
    hide Inv, Apply, Enabled, StatusAfter;
    if n > 0 {
      StandingExactly(r, n - 1, co);
      RunKeeps(r, n - 1);
      assert StepAt(r, n - 1);
      StatusStep(r.states[n - 1], r.steps[n - 1], co);
    }
  }

  /** A coroutine of a script that ended, or was closed, stays dead until it is collected. */
  lemma {:induction false} DeadIsForever(r: Run, i: nat, j: nat, co: Co)
    requires ValidRun(r) && i <= j <= |r.steps| && forall k | i <= k < j :: r.steps[k] != Collect(co)
    requires OfAScript(r.states[i].lua.cos, co) && r.states[i].lua.cos[co].st.Dead?
    ensures OfAScript(r.states[j].lua.cos, co) && r.states[j].lua.cos[co].st.Dead?
  {
    hide Inv, Apply;
    if i < j {
      DeadIsForever(r, i, j - 1, co);
      RunKeeps(r, j - 1);
      assert StepAt(r, j - 1);
      var s, step := r.states[j - 1], r.steps[j - 1];
      StatusStep(s, step, co);
      DeadIsStill(s, step, co);
      hide Enabled, StatusAfter;
    }
  }

  lemma DeadIsStill(s: State, step: Step, co: Co)
    requires Inv(s) && Enabled(s, step) && OfAScript(s.lua.cos, co) && s.lua.cos[co].st.Dead?
    ensures step != ScriptCreate(co) && StatusAfter(s, step, co, Dead) == Dead
  {
    if ScriptOnTop(s) { TopIsKnown(s); }
    hide Inv;
  }
}
