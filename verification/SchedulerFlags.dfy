/** The flags, the recorded fault and the cancelled calls, exactly. */
module SchedulerFlags {
  import opened SchedulerState
  import opened Wrappers
  import opened SchedulerSteps
  import opened SchedulerProgress

  datatype Gates = Gates(paused: bool, shuttingDown: bool, interrupted: bool, cancelled: set<HandlerId>)

  function GatesOf(s: State): Gates {
    Gates(s.paused, s.shuttingDown, s.interrupted, s.hist.cancelled)
  }

  predicate BeginsShutdown(step: Step) {
    step.PostBeginShutdown? || step.HostShutsDown?
  }

  // Interrupt() that gets as far as the flag.
  predicate SetsInterrupt(s: State, step: Step) {
    step.PostInterrupt? && !s.shuttingDown
  }

  // The closure of ClearInterrupt runs.
  predicate ClearsInterrupt(s: State, step: Step) {
    step.RunClosure? && step.t in s.exec.queue && s.exec.queue[step.t].ClearFlag?
  }

  function GatesAfter(s: State, step: Step): Gates {
    Gates(if step.SetPaused? then step.paused else s.paused,
          s.shuttingDown || BeginsShutdown(step),
          SetsInterrupt(s, step) || (s.interrupted && !ClearsInterrupt(s, step)),
          if step.HostCancels? && step.co in s.completions then s.hist.cancelled + {s.completions[step.co].id}
          else s.hist.cancelled)
  }

  // What goes wrong in a step with nobody to tell: a script that is awaited by nobody raises,
  // or a completion finds its coroutine not suspended.
  function FaultOf(s: State, step: Step): Option<Fault> {
    match step
    case ScriptEnd(Raised(message)) => UnheardError(s, message)
    case RunClosure(t, _) =>
      if t !in s.exec.queue then None else
      (match s.exec.queue[t]
       case Resume(h, _) => if s.shuttingDown then None else Unresumable(s, h)
       case SleepExpiry(h) => if s.paused || h !in s.timers.active then None else Unresumable(s, h)
       case _ => None)
    case _ => None
  }

  function UnheardError(s: State, message: Value): Option<Fault> {
    if s.ctl == [] then None else
    match s.ctl[|s.ctl| - 1]
    case Frame(co, AfterResume) => if co in s.completions then None else Some(UnhandledError(message))
    case Frame(co, AfterTimeout) => if co in s.completions then None else Some(UnhandledError(message))
    case _ => None
  }

  function Unresumable(s: State, h: Handle): Option<Fault> {
    if h in s.pending && !(s.pending[h] in s.lua.cos && s.lua.cos[s.pending[h]].st.Suspended?)
    then Some(NotResumable(h))
    else None
  }

  predicate FaultNext(s: State, step: Step, s1: State) {
    s1.unhandled == if step.TakeFault? then None else if s.unhandled.Some? then s.unhandled else FaultOf(s, step)
  }

  predicate SameFlags(s: State, s1: State) {
    GatesOf(s1) == GatesOf(s) && s1.unhandled == s.unhandled
  }

  // Only the recorded fault may have changed, and only if there was none.
  predicate Notes(s: State, s1: State, f: Option<Fault>) {
    GatesOf(s1) == GatesOf(s) && s1.unhandled == if s.unhandled.Some? then s.unhandled else f
  }

  // --- the operations ---

  lemma ReleaseFlags(s: State, co: Co)
    ensures SameFlags(s, Release(s, co)) && SameFlags(s, Release(Purge(s, co), co))
  {
    hide SetSt, PoolRelease, HandlesOf;
  }

  lemma EnterFlags(s: State, spare: Slot, after: After)
    ensures SameFlags(s, Enter(s, spare, after)) && SameFlags(s, LoadOnly(s, spare))
  {
    hide SetSt, LuaAcquire, PoolAcquire, PoolRelease;
  }

  lemma RecycleFlags(s: State, co: Co, out: Outcome)
    requires !out.Yielded?
    ensures Notes(s, Recycle(s, co, out),
                  if out.Raised? && co !in s.completions then Some(UnhandledError(out.message)) else None)
  {
    var s1 := Purge(s, co);
    assert SameFlags(s, s1) && s1.completions == s.completions by { hide HandlesOf; }
    var s2 := s1.(completions := s1.completions - {co});
    ReleaseFlags(s1, co);
    ReleaseFlags(s2, co);
    if co in s.completions { DueFlags(Release(s2, co), s.completions[co], ResultOf(out)); }
    hide Release, Purge, PushDeliver, ResultOf, GatesOf;
  }

  lemma DueFlags(s: State, hd: Handler, r: Result)
    ensures SameFlags(s, PushDeliver(s, hd, r))
  {}

  lemma ReturnFlags(s: State, co: Co, id: HandlerId, caller: Handle, out: Outcome)
    ensures SameFlags(s, TaskReturned(s, co, id, out)) && SameFlags(s, CallReturned(s, co, id, out))
    ensures SameFlags(s, RequireReturned(s, co, caller, out))
    ensures Notes(s, ResumeReturned(s, co, out),
                  if out.Raised? && co !in s.completions then Some(UnhandledError(out.message)) else None)
  {
    if !out.Yielded? {
      RecycleFlags(s, co, out);
      RecycleFlags(PutHandler(s, co, TaskPromise(id)), co, out);
      ReleaseFlags(s, co);
      ReleaseFlags(PushResume(s, caller, RequireArgs(ResultOf(out))), co);
    }
    hide Recycle, Release, Purge, Schedule;
  }

  lemma PopFlags(s: State, out: Outcome)
    requires ScriptOnTop(s)
    ensures SameFlags(s, PopFrame(s, out)) && PopFrame(s, out).completions == s.completions
  {
    hide SetSt;
  }

  lemma EndFlags(s: State, co: Co, after: After, out: Outcome)
    requires s.ctl != [] && s.ctl[|s.ctl| - 1] == Frame(co, after)
    ensures Notes(s, EndScript(s, out), FaultOf(s, ScriptEnd(out)))
  {
    PopFlags(s, out);
    EndIs(s, out);
    hide EndScript, TaskReturned, ResumeReturned, CallReturned, RequireReturned, PopFrame, GatesOf;
    var s0 := PopFrame(s, out);
    match after {
      case AfterTask(id) => ReturnFlags(s0, co, id, 0, out);
      case AfterCall(id) => ReturnFlags(s0, co, id, 0, out);
      case AfterRequire(caller) => ReturnFlags(s0, co, 0, caller, out);
      case _ => ReturnFlags(s0, co, 0, 0, out);
    }
  }

  lemma DoResumeFlags(s: State, h: Handle, args: seq<Value>)
    ensures Notes(s, DoResume(s, h, args), Unresumable(s, h))
  {
    if h in s.pending && !SuspendedAt(s.lua, s.pending[h]) {
      ReleaseFlags(Record(s.(pins := s.pins - {h}, pending := s.pending - {h}), NotResumable(h)), s.pending[h]);
    }
    hide Purge, Release, SetSt;
  }

  lemma TaskFlags(s: State, t: nat, spare: Slot, loads: bool)
    requires t in s.exec.queue && s.exec.queue[t].Task?
    ensures SameFlags(s, RunTask(s, t, spare, loads))
  {
    var s1, id := Dequeue(s, t), s.exec.queue[t].id;
    EnterFlags(s1, spare, AfterTask(id));
    DueFlags(s1, TaskPromise(id), Rejected);
    DueFlags(LoadOnly(s1, spare), TaskPromise(id), LoadError);
    hide Enter, LoadOnly, PushDeliver;
  }

  lemma GatedFlags(s: State, caller: Handle, spare: Slot, loads: bool, message: Value, args: seq<Value>)
    ensures SameFlags(s, RunRequire(s, caller, spare, loads, message))
    ensures SameFlags(s, RunLoadFile(s, caller, spare, args))
  {
    EnterFlags(s, spare, AfterRequire(caller));
    hide Enter, LoadOnly, Schedule;
  }

  lemma PassFlags(s: State, a: seq<Co>, b: seq<Co>)
    requires Enumerates(a, s.pool.active.Keys) && Enumerates(b, s.completions.Keys)
    ensures SameFlags(s, RunInterruptPass(s, a, b))
  {
    hide CancelAllLua, ResetAll, PoolReleaseAll, InterruptedItems, PlacesAfterSwap;
  }

  lemma TimeoutFlags(s: State, h: Handle, fn: Ref, spare: Slot)
    ensures SameFlags(s, RunTimeoutExpiry(s, h, fn, spare))
  {
    hide SetSt, LuaAcquire, PoolAcquire, Unref;
  }

  lemma SleepFlags(s: State, h: Handle)
    ensures Notes(s, RunSleepExpiry(s, h), if s.paused || h !in s.timers.active then None else Unresumable(s, h))
  {
    DoResumeFlags(s.(timers := s.timers.(active := s.timers.active - {h})), h, []);
    hide DoResume, Schedule;
  }

  lemma ClosureNotes(s: State, t: nat, ch: Choice)
    requires Enabled(s, RunClosure(t, ch)) && !s.exec.queue[t].ClearFlag?
    ensures Notes(s, ApplyClosure(s, t, ch), FaultOf(s, RunClosure(t, ch)))
  {
    var s1 := Dequeue(s, t);
    SameAfterDequeue(s, t);
    hide RunTask, DoResume, RunRequire, RunLoadFile, RunInterruptPass, RunSleepExpiry, RunTimeoutExpiry;
    hide Dequeue, GatesOf;
    match s.exec.queue[t] {
      case Task(_, _) => TaskFlags(s, t, ch.spare, ch.loads);
      case Resume(h, args) => DoResumeFlags(s1, h, args);
      case RequireRun(h) => GatedFlags(s1, h, ch.spare, ch.loads, if ch.args == [] then 0 else ch.args[0], []);
      case LoadFileRun(h) => GatedFlags(s1, h, ch.spare, ch.loads, 0, ch.args);
      case InterruptPass => PassFlags(s1, ch.coOrder, ch.handlerOrder);
      case SleepExpiry(h) => SleepFlags(s1, h);
      case TimeoutExpiry(h, fn) => TimeoutFlags(s1, h, fn, ch.spare);
    }
  }

  lemma SameAfterDequeue(s: State, t: nat)
    ensures SameFlags(s, Dequeue(s, t)) && Dequeue(s, t) == s.(exec := Dequeue(s, t).exec)
  {}

  lemma ClosureFlags(s: State, t: nat, ch: Choice)
    requires Enabled(s, RunClosure(t, ch))
    ensures var s1 := ApplyClosure(s, t, ch);
            GatesOf(s1) == GatesAfter(s, RunClosure(t, ch)) && FaultNext(s, RunClosure(t, ch), s1)
  {
    if !s.exec.queue[t].ClearFlag? {
      ClosureNotes(s, t, ch);
      hide ApplyClosure, FaultOf;
    }
  }

  lemma PostedFlags(s: State, step: Step)
    requires Enabled(s, step) && Posted(step)
    ensures GatesOf(Apply(s, step)) == GatesAfter(s, step) && FaultNext(s, step, Apply(s, step))
  {
    hide ApplyClosure, EndScript, HostCall, CancelCall, Shutdown, Park, TimeoutSet, CancelTimer, Created, DeliverTop;
    hide Schedule;
  }

  lemma ParkFlags(s: State, co: Co, sleep: bool)
    ensures SameFlags(s, Park(s, co, sleep))
  {
    hide Schedule;
  }

  lemma HandlerFlags(s: State)
    requires s.ctl != [] && s.ctl[|s.ctl| - 1].Deliver?
    ensures SameFlags(s, DeliverTop(s))
  {
    hide Schedule;
  }

  lemma ScriptFlags(s: State, step: Step)
    requires Enabled(s, step) && (FromScript(step) || step.ScriptPark? || step.RunHandler?)
    ensures SameFlags(s, Apply(s, step))
  {
    if step.ScriptPark? { ParkFlags(s, Top(s), step.sleep); }
    if step.RunHandler? { HandlerFlags(s); }
    hide ApplyClosure, EndScript, HostCall, CancelCall, Shutdown, SetSt, Schedule, CancelTimerLua, DeliverTop;
    hide PushTask, Interrupt, PushResume, PushGated, Park;
  }

  lemma CancelFlags(s: State, co: Co)
    ensures GatesOf(CancelCall(s, co)) == GatesAfter(s, HostCancels(co)) && CancelCall(s, co).unhandled == s.unhandled
  {
    var s1 := if co in s.completions then
                s.(completions := s.completions - {co},
                   hist := s.hist.(cancelled := s.hist.cancelled + {s.completions[co].id},
                                   place := s.hist.place[s.completions[co].id := Cancelled]))
              else s;
    ReleaseFlags(s1, co);
    hide Purge, Release;
  }

  lemma DownFlags(s: State, order: seq<Co>)
    requires Enumerates(order, s.completions.Keys)
    ensures GatesOf(Shutdown(s, order)) == GatesAfter(s, HostShutsDown(order))
    ensures Shutdown(s, order).unhandled == s.unhandled
  {
    hide CancelAllLua, PoolShutdownLua, ShutdownSettlements, PlacesAfterShutdown;
  }

  lemma HostFlags(s: State, step: Step)
    requires Enabled(s, step) && (step.HostCalls? || step.HostCancels? || step.HostShutsDown?)
    ensures GatesOf(Apply(s, step)) == GatesAfter(s, step) && Apply(s, step).unhandled == s.unhandled
  {
    match step {
      case HostCalls(spare) => EnterFlags(NewHandlerId(s), spare, AfterCall(s.hist.nextId)); hide Enter;
      case HostCancels(co) => CancelFlags(s, co); hide CancelCall;
      case HostShutsDown(order) => DownFlags(s, order); hide Shutdown;
    }
  }

  /** The flags and the fault after a step. */
  lemma FlagStep(s: State, step: Step)
    requires Enabled(s, step)
    ensures GatesOf(Apply(s, step)) == GatesAfter(s, step) && FaultNext(s, step, Apply(s, step))
  {
    if step.RunClosure? {
      ClosureFlags(s, step.t, step.choice);
      hide ApplyClosure, FaultNext, GatesAfter;
    } else if step.ScriptEnd? {
      EndFlags(s, Top(s), s.ctl[|s.ctl| - 1].after, step.out);
      hide EndScript, FaultOf;
    } else if Posted(step) {
      PostedFlags(s, step);
      hide Apply, FaultNext, GatesAfter;
    } else if step.HostCalls? || step.HostCancels? || step.HostShutsDown? {
      HostFlags(s, step);
      hide Apply, GatesAfter;
    } else {
      ScriptFlags(s, step);
      hide Apply;
    }
  }

  // --- whole runs ---

  /** The runtime is paused if and only if the last Pause or Resume was a Pause. */
  lemma {:induction false} PausedExactly(r: Run, n: nat)
    requires ValidRun(r) && n <= |r.steps|
    ensures r.states[n].paused <==>
              exists i | 0 <= i < n :: r.steps[i] == SetPaused(true) && NotSince(r, i, n)
  {
    hide Apply, Enabled, GatesAfter;
    if n > 0 {
      PausedExactly(r, n - 1);
      assert StepAt(r, n - 1);
      var step := r.steps[n - 1];
      PausedNext(r.states[n - 1], step);
      assert NotSince(r, n - 1, n);
      forall i | 0 <= i < n - 1 ensures NotSince(r, i, n) <==> NotSince(r, i, n - 1) && step != SetPaused(false) {}
    }
  }

  predicate NotSince(r: Run, i: nat, n: nat)
    requires n <= |r.steps|
  {
    forall k | i < k < n :: r.steps[k] != SetPaused(false)
  }

  lemma PausedNext(s: State, step: Step)
    requires Enabled(s, step)
    ensures Apply(s, step).paused == if step.SetPaused? then step.paused else s.paused
  {
    FlagStep(s, step);
    hide Apply, Enabled;
  }

  /** It is shutting down if and only if BeginShutdown or Shutdown was called. */
  lemma {:induction false} ShuttingDownExactly(r: Run, n: nat)
    requires ValidRun(r) && n <= |r.steps|
    ensures r.states[n].shuttingDown <==> exists i | 0 <= i < n :: BeginsShutdown(r.steps[i])
  {
    hide Apply, Enabled;
    if n > 0 {
      ShuttingDownExactly(r, n - 1);
      assert StepAt(r, n - 1);
      FlagStep(r.states[n - 1], r.steps[n - 1]);
    }
  }

  predicate NotCleared(r: Run, i: nat, n: nat)
    requires |r.states| == |r.steps| + 1 && n <= |r.steps|
  {
    forall k | i < k < n :: !ClearsInterrupt(r.states[k], r.steps[k])
  }

  predicate InterruptedAt(r: Run, i: nat)
    requires |r.states| == |r.steps| + 1 && i < |r.steps|
  {
    SetsInterrupt(r.states[i], r.steps[i])
  }

  /** It is interrupted if and only if Interrupt came, before any shutdown, and no clearing ran since. */
  lemma {:induction false} InterruptedExactly(r: Run, n: nat)
    requires ValidRun(r) && n <= |r.steps|
    ensures r.states[n].interrupted <==> exists i | 0 <= i < n :: InterruptedAt(r, i) && NotCleared(r, i, n)
  {
    hide Apply, Enabled, ClearsInterrupt;
    if n > 0 {
      InterruptedExactly(r, n - 1);
      assert StepAt(r, n - 1);
      var s, step := r.states[n - 1], r.steps[n - 1];
      FlagStep(s, step);
      assert r.states[n].interrupted <==> InterruptedAt(r, n - 1) || (s.interrupted && !ClearsInterrupt(s, step));
      assert NotCleared(r, n - 1, n);
      forall i | 0 <= i < n - 1 ensures NotCleared(r, i, n) <==> NotCleared(r, i, n - 1) && !ClearsInterrupt(s, step) {}
    }
  }

  predicate NotTaken(r: Run, i: nat, n: nat)
    requires n <= |r.steps|
  {
    forall k | i < k < n :: r.steps[k] != TakeFault
  }

  predicate FaultAt(r: Run, i: nat, f: Fault)
    requires |r.states| == |r.steps| + 1 && i < |r.steps|
  {
    FaultOf(r.states[i], r.steps[i]) == Some(f) && r.states[i].unhandled.None?
  }

  /** The fault on record is the first one since the record was last taken. */
  lemma {:induction false} FaultExactly(r: Run, n: nat, f: Fault)
    requires ValidRun(r) && n <= |r.steps|
    ensures r.states[n].unhandled == Some(f) <==> exists i | 0 <= i < n :: FaultAt(r, i, f) && NotTaken(r, i, n)
  {
    hide Apply, Enabled, FaultOf;
    if n > 0 {
      FaultExactly(r, n - 1, f);
      assert StepAt(r, n - 1);
      var s, step := r.states[n - 1], r.steps[n - 1];
      FlagStep(s, step);
      NoFaultWhenTaken(s);
      assert r.states[n].unhandled == Some(f) <==>
               FaultAt(r, n - 1, f) || (s.unhandled == Some(f) && step != TakeFault);
      assert NotTaken(r, n - 1, n);
      forall i | 0 <= i < n - 1 ensures NotTaken(r, i, n) <==> NotTaken(r, i, n - 1) && step != TakeFault {}
    }
  }

  lemma NoFaultWhenTaken(s: State)
    ensures FaultOf(s, TakeFault) == None
  {}
}
