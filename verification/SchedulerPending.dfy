/** How a handle leaves the pending table: by its own wake-up, or by a purge, and in no other way. */
module SchedulerPending {
  import opened SchedulerState
  import opened SchedulerSteps
  import opened SchedulerInvariant
  import opened SchedulerKeeps
  import opened SchedulerProgress
  import opened SchedulerLogs
  import opened SchedulerRuns

  // The step runs the closure that resumes for this handle, and the closure gets that far.
  predicate WokenBy(s: State, step: Step, h: Handle) {
    && step.RunClosure? && step.t in s.exec.queue && h in s.pending
    && match s.exec.queue[step.t]
       case Resume(w, _) => w == h && !s.shuttingDown
       case SleepExpiry(w) => w == h && h in s.timers.active && !s.paused
       case _ => false
  }

  // Another handle of the same coroutine is woken, and the coroutine cannot be resumed.
  predicate RefusedWith(s: State, step: Step, w: Handle, h: Handle) {
    WokenBy(s, step, w) && h in s.pending && w != h && s.pending[w] == s.pending[h] && !SuspendedAt(s.lua, s.pending[h])
  }

  // CleanupStalePendings follows: not for a script's own resume, nor where a module body ends.
  predicate PurgesAtEnd(after: After, out: Outcome) {
    !out.Yielded? && !after.ByScript? && !after.AfterRequire?
  }

  // The step ends the coroutine of the handle, finds it not resumable, or empties the table.
  predicate PurgedBy(s: State, step: Step, h: Handle) {
    && h in s.pending
    && match step
       case RunClosure(t, _) =>
         && t in s.exec.queue
         && (match s.exec.queue[t]
             case InterruptPass => !s.shuttingDown
             case Resume(w, _) => RefusedWith(s, step, w, h)
             case SleepExpiry(w) => RefusedWith(s, step, w, h)
             case _ => false)
       case ScriptEnd(out) =>
         ScriptOnTop(s) && Top(s) == s.pending[h] && PurgesAtEnd(s.ctl[|s.ctl| - 1].after, out)
       case HostCancels(co) => co == s.pending[h]
       case HostShutsDown(_) => !s.shuttingDown
       case _ => false
  }

  predicate TakenBy(s: State, step: Step, h: Handle) {
    WokenBy(s, step, h) || PurgedBy(s, step, h)
  }

  // --- the operations ---

  predicate SamePending(s: State, s1: State) {
    s1.pending == s.pending
  }

  lemma AcquireSame(s: State, spare: Slot, after: After)
    ensures SamePending(s, Enter(s, spare, after)) && SamePending(s, LoadOnly(s, spare))
  {
    hide SetSt, LuaAcquire, PoolAcquire, PoolRelease;
  }

  lemma ReleaseSame(s: State, co: Co)
    ensures SamePending(s, Release(s, co))
  {
    hide SetSt, PoolRelease;
  }

  lemma RecycleTakes(s: State, co: Co, out: Outcome)
    requires !out.Yielded?
    ensures Recycle(s, co, out).pending == s.pending - HandlesOf(s, co)
  {
    var s1 := Purge(s, co);
    ReleaseSame(s1, co);
    ReleaseSame(s1.(completions := s1.completions - {co}), co);
    hide Release, HandlesOf;
  }

  lemma DoResumeTakes(s: State, w: Handle, args: seq<Value>)
    ensures var s1 := DoResume(s, w, args);
            forall h :: h in s1.pending <==>
              && h in s.pending && h != w
              && !(w in s.pending && s.pending[w] == s.pending[h] && !SuspendedAt(s.lua, s.pending[w]))
    ensures var s1 := DoResume(s, w, args); forall h <- s1.pending :: h in s.pending && s1.pending[h] == s.pending[h]
  {
    hide SetSt, Release, SuspendedAt;
    if w in s.pending && !SuspendedAt(s.lua, s.pending[w]) {
      var s1 := Record(s.(pins := s.pins - {w}, pending := s.pending - {w}), NotResumable(w));
      ReleaseSame(Purge(s1, s.pending[w]), s.pending[w]);
    }
  }

  // What the step does to one handle.
  predicate Decided(s: State, step: Step, s1: State, h: Handle) {
    && (h in s1.pending <==>
          (h in s.pending && !TakenBy(s, step, h)) || (step.ScriptPark? && h == s.timers.next))
    && (h in s1.pending && h in s.pending && !step.ScriptPark? ==> s1.pending[h] == s.pending[h])
  }

  lemma UntakenIsDecided(s: State, step: Step, s1: State, h: Handle)
    requires SamePending(s, s1) && !step.ScriptPark? && (h in s.pending ==> !TakenBy(s, step, h))
    ensures Decided(s, step, s1, h)
  {
    hide WokenBy, PurgedBy;
  }

  lemma EnteringSame(s: State, t: nat, spare: Slot, loads: bool, caller: Handle, message: Value, args: seq<Value>)
    ensures t in s.exec.queue && s.exec.queue[t].Task? ==> SamePending(s, RunTask(s, t, spare, loads))
    ensures SamePending(s, RunRequire(s, caller, spare, loads, message))
    ensures SamePending(s, RunLoadFile(s, caller, spare, args))
  {
    hide LoadOnly, Enter;
    AcquireSame(s, spare, AfterRequire(caller));
    if t in s.exec.queue && s.exec.queue[t].Task? { AcquireSame(Dequeue(s, t), spare, AfterTask(s.exec.queue[t].id)); }
  }

  lemma TimeoutSame(s: State, h: Handle, fn: Ref, spare: Slot)
    ensures SamePending(s, RunTimeoutExpiry(s, h, fn, spare))
  {
    hide SetSt, LuaAcquire, PoolAcquire, Unref;
  }

  lemma WakeDecides(s: State, t: nat, ch: Choice, h: Handle)
    requires Enabled(s, RunClosure(t, ch)) && (s.exec.queue[t].Resume? || s.exec.queue[t].SleepExpiry?)
    ensures Decided(s, RunClosure(t, ch), ApplyClosure(s, t, ch), h)
  {
    hide DoResume;
    var s1, w := Dequeue(s, t), s.exec.queue[t].h;
    if s.exec.queue[t].Resume? {
      DoResumeTakes(s1, w, s.exec.queue[t].args);
    } else {
      DoResumeTakes(s1.(timers := s1.timers.(active := s1.timers.active - {w})), w, []);
    }
  }

  lemma PassDecides(s: State, t: nat, ch: Choice, h: Handle)
    requires Enabled(s, RunClosure(t, ch)) && s.exec.queue[t].InterruptPass?
    ensures Decided(s, RunClosure(t, ch), ApplyClosure(s, t, ch), h)
  {
    hide CancelAllLua, ResetAll, PoolReleaseAll, InterruptedItems, PlacesAfterSwap, SuspendedAt;
  }

  lemma ClosureDecides(s: State, t: nat, ch: Choice, h: Handle)
    requires Enabled(s, RunClosure(t, ch))
    ensures Decided(s, RunClosure(t, ch), ApplyClosure(s, t, ch), h)
  {
    hide RunTask, DoResume, RunRequire, RunLoadFile, RunTimeoutExpiry, RunInterruptPass, RunSleepExpiry, Decided;
    var s1, step := Dequeue(s, t), RunClosure(t, ch);
    match s.exec.queue[t] {
      case Task(_, _) =>
        EnteringSame(s, t, ch.spare, ch.loads, 0, 0, []);
        UntakenIsDecided(s, step, ApplyClosure(s, t, ch), h);
      case Resume(_, _) => WakeDecides(s, t, ch, h);
      case RequireRun(caller) =>
        EnteringSame(s1, t, ch.spare, ch.loads, caller, if ch.args == [] then 0 else ch.args[0], []);
        UntakenIsDecided(s, step, ApplyClosure(s, t, ch), h);
      case LoadFileRun(caller) =>
        EnteringSame(s1, t, ch.spare, ch.loads, caller, 0, ch.args);
        UntakenIsDecided(s, step, ApplyClosure(s, t, ch), h);
      case InterruptPass => PassDecides(s, t, ch, h);
      case ClearFlag => UntakenIsDecided(s, step, ApplyClosure(s, t, ch), h);
      case SleepExpiry(_) => WakeDecides(s, t, ch, h);
      case TimeoutExpiry(hh, fn) =>
        TimeoutSame(s1, hh, fn, ch.spare);
        UntakenIsDecided(s, step, ApplyClosure(s, t, ch), h);
    }
  }

  // The second halves, each for a coroutine whose lua_resume has returned.
  lemma ReturnTakes(s: State, co: Co, id: HandlerId, caller: Handle, out: Outcome)
    ensures RequireReturned(s, co, caller, out).pending == s.pending
    ensures TaskReturned(s, co, id, out).pending == ResumeReturned(s, co, out).pending
    ensures CallReturned(s, co, id, out).pending == ResumeReturned(s, co, out).pending
    ensures ResumeReturned(s, co, out).pending == if out.Yielded? then s.pending else s.pending - HandlesOf(s, co)
  {
    hide Recycle, Release, Schedule, HandlesOf;
    if !out.Yielded? {
      SameHandles(s, PutHandler(s, co, TaskPromise(id)), co);
      RecycleTakes(s, co, out);
      RecycleTakes(PutHandler(s, co, TaskPromise(id)), co, out);
      ReleaseSame(Purge(s, co), co);
      ReleaseSame(PushResume(s, caller, RequireArgs(ResultOf(out))), co);
    }
  }

  // The handles that go with a script that ends.
  lemma EndTakes(s: State, co: Co, after: After, out: Outcome)
    requires s.ctl != [] && s.ctl[|s.ctl| - 1] == Frame(co, after)
    ensures EndScript(s, out).pending == if PurgesAtEnd(after, out) then s.pending - HandlesOf(s, co) else s.pending
  {
    var s0 := PopFrame(s, out);
    SameHandles(s, s0, co);
    hide TaskReturned, ResumeReturned, CallReturned, RequireReturned, PopFrame, HandlesOf;
    match after {
      case AfterTask(id) => ReturnTakes(s0, co, id, 0, out);
      case AfterCall(id) => ReturnTakes(s0, co, id, 0, out);
      case AfterRequire(caller) => ReturnTakes(s0, co, 0, caller, out);
      case _ => ReturnTakes(s0, co, 0, 0, out);
    }
  }

  lemma SameHandles(s: State, s1: State, co: Co)
    requires s1.pending == s.pending
    ensures HandlesOf(s1, co) == HandlesOf(s, co)
  {}

  lemma EndDecides(s: State, out: Outcome, h: Handle)
    requires ScriptOnTop(s)
    ensures Decided(s, ScriptEnd(out), EndScript(s, out), h)
  {
    EndTakes(s, Top(s), s.ctl[|s.ctl| - 1].after, out);
    hide EndScript, PurgesAtEnd;
  }

  lemma CancelDecides(s: State, co: Co, h: Handle)
    ensures Decided(s, HostCancels(co), CancelCall(s, co), h)
  {
    var s1 := if co in s.completions then
                s.(completions := s.completions - {co},
                   hist := s.hist.(cancelled := s.hist.cancelled + {s.completions[co].id},
                                   place := s.hist.place[s.completions[co].id := Cancelled]))
              else s;
    ReleaseSame(Purge(s1, co), co);
    hide Release;
  }

  lemma DownDecides(s: State, order: seq<Co>, h: Handle)
    requires Enumerates(order, s.completions.Keys)
    ensures Decided(s, HostShutsDown(order), Shutdown(s, order), h)
  {
    hide CancelAllLua, PoolShutdownLua, ShutdownSettlements, PlacesAfterShutdown;
  }

  lemma ScriptSame(s: State, step: Step)
    requires Enabled(s, step) && (FromScript(step) || step.RunHandler?)
    ensures SamePending(s, Apply(s, step))
  {
    if step.RunHandler? { DeliverSame(s); }
    hide ApplyClosure, EndScript, HostCall, CancelCall, Shutdown, Park, SetSt, Schedule, CancelTimerLua;
    hide PushTask, Interrupt, DeliverTop, PushResume, PushGated;
  }

  lemma DeliverSame(s: State)
    requires s.ctl != [] && s.ctl[|s.ctl| - 1].Deliver?
    ensures SamePending(s, DeliverTop(s))
  {
    hide Schedule;
  }

  lemma PostedSame(s: State, step: Step)
    requires Enabled(s, step) && Posted(step)
    ensures SamePending(s, Apply(s, step))
  {
    hide ApplyClosure, EndScript, HostCall, CancelCall, Shutdown, Park, TimeoutSet, CancelTimer, Created;
    hide DeliverTop, Schedule;
  }

  lemma HostCallSame(s: State, spare: Slot)
    ensures SamePending(s, HostCall(s, spare))
  {
    AcquireSame(NewHandlerId(s), spare, AfterCall(s.hist.nextId));
    hide Enter;
  }

  lemma ParkDecides(s: State, sleep: bool, h: Handle)
    requires ScriptOnTop(s)
    ensures Decided(s, ScriptPark(sleep), Park(s, Top(s), sleep), h)
  {
    hide Schedule;
  }

  lemma HostCallsSame(s: State, spare: Slot)
    requires Enabled(s, HostCalls(spare))
    ensures SamePending(s, Apply(s, HostCalls(spare)))
  {
    HostCallSame(s, spare);
    hide HostCall;
  }

  lemma OtherDecides(s: State, step: Step, h: Handle)
    requires Enabled(s, step) && (FromScript(step) || Posted(step) || step.RunHandler? || step.HostCalls?)
    ensures Decided(s, step, Apply(s, step), h)
  {
    hide Apply, SamePending, Decided, Enabled;
    if step.HostCalls? {
      HostCallsSame(s, step.spare);
    } else if Posted(step) {
      PostedSame(s, step);
    } else {
      ScriptSame(s, step);
    }
    UntakenIsDecided(s, step, Apply(s, step), h);
  }

  /** A step takes out the handle it wakes and the handles it purges, adds the handle of a park, and keeps the rest. */
  lemma PendingStep(s: State, step: Step, h: Handle)
    requires Enabled(s, step)
    ensures Decided(s, step, Apply(s, step), h)
  {
    hide WokenBy, Decided;
    match step {
      case RunClosure(t, ch) => ClosureDecides(s, t, ch, h); hide ApplyClosure;
      case ScriptEnd(out) => EndDecides(s, out, h); hide EndScript;
      case HostCancels(co) => CancelDecides(s, co, h); hide CancelCall;
      case HostShutsDown(order) => DownDecides(s, order, h); hide Shutdown;
      case ScriptPark(sleep) => ParkDecides(s, sleep, h); hide Park;
      case _ => OtherDecides(s, step, h); hide Apply;
    }
  }

  // --- whole runs ---

  predicate TakenIn(r: Run, i: nat, j: nat, h: Handle)
    requires |r.states| == |r.steps| + 1 && j <= |r.steps|
  {
    exists k | i <= k < j :: TakenBy(r.states[k], r.steps[k], h)
  }

  lemma TakenNext(r: Run, i: nat, j: nat, h: Handle)
    requires |r.states| == |r.steps| + 1 && i < j <= |r.steps|
    ensures TakenIn(r, i, j, h) <==> TakenIn(r, i, j - 1, h) || TakenBy(r.states[j - 1], r.steps[j - 1], h)
  {
    if TakenIn(r, i, j, h) {
      var k :| i <= k < j && TakenBy(r.states[k], r.steps[k], h);
      assert k < j - 1 || k == j - 1;
    }
  }

  lemma TakenIsPending(s: State, step: Step, h: Handle)
    requires Inv(s) && TakenBy(s, step, h)
    ensures h in s.hist.issued
  {
    hide Inv;
    PendingWasIssued(s, h);
  }

  lemma NextIsNotIssued(s: State)
    requires Inv(s)
    ensures s.timers.next !in s.hist.issued
  {
    Split(s);
    hide Core, Machine, Handles, Timing, PlaceInv, ResumeInv, CallerInv;
  }

  lemma PendingNext(s: State, step: Step, h: Handle, taken: bool)
    requires Inv(s) && Enabled(s, step) && (taken ==> h in s.hist.issued)
    requires h in s.pending <==> h in s.hist.issued && !taken
    ensures var s1 := Apply(s, step); var taken1 := taken || TakenBy(s, step, h);
            (taken1 ==> h in s1.hist.issued) && (h in s1.pending <==> h in s1.hist.issued && !taken1)
  {
    hide Inv, Apply, Enabled, TakenBy, Wakes;
    PendingStep(s, step, h);
    StepLogs(s, step);
    NextIsNotIssued(s);
    if TakenBy(s, step, h) { TakenIsPending(s, step, h); }
  }

  /**
   In every state of every run a handle is pending exactly when it was issued and no step has
   woken or purged it since: none is lost, and none comes back.
   */
  lemma {:induction false} PendingExactly(r: Run, n: nat, h: Handle)
    requires ValidRun(r) && n <= |r.steps|
    ensures TakenIn(r, 0, n, h) ==> h in r.states[n].hist.issued
    ensures h in r.states[n].pending <==> h in r.states[n].hist.issued && !TakenIn(r, 0, n, h)
  {
    hide Inv, Apply, Enabled, TakenBy;
    if n > 0 {
      PendingExactly(r, n - 1, h);
      RunKeeps(r, n - 1);
      assert StepAt(r, n - 1);
      PendingNext(r.states[n - 1], r.steps[n - 1], h, TakenIn(r, 0, n - 1, h));
      TakenNext(r, 0, n, h);
    }
  }
}
