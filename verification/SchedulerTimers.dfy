/** Timeouts fire once and sleepers keep their timers, in every run and through every pause. */
module SchedulerTimers {
  import opened SchedulerState
  import opened SchedulerSteps
  import opened SchedulerInvariant
  import opened SchedulerKeeps
  import opened SchedulerProgress
  import opened SchedulerUses
  import opened SchedulerLogs
  import opened SchedulerRuns
  import opened SchedulerPending
  import opened SchedulerCheckouts

  // --- timers ---

  /**
   Every setTimeout handle is live, or its function's slot was given back exactly once,
   by firing, by clearTimeout or by CancelAll; it fires at most once, and not while live.
   A live timer has one closure in the queue, and no handle has two.
   */
  ghost predicate TimersOnce(s: State) {
    SlotsOnce(s) && ClosuresOnce(s)
  }

  ghost predicate SlotsOnce(s: State) {
    && (forall h | h in s.timers.timeouts ::
          if h in s.timers.active then s.lua.freed[TimerFn(h)] == 0 && s.timers.fired[h] == 0
          else s.lua.freed[TimerFn(h)] == 1 && s.timers.fired[h] <= 1)
    && (forall h | h in s.timers.active && s.timers.active[h].SetTimeout? :: h in s.timers.timeouts)
    && (forall h | h in s.timers.active && s.timers.active[h].Sleep? :: h in s.pending)
  }

  ghost predicate ClosuresOnce(s: State) {
    && (forall h | h in s.timers.active ::
          exists t :: t in s.exec.queue && s.exec.queue[t] == TimerClosure(h, s.timers.active[h]))
    && (forall t, u |
          t in s.exec.queue && u in s.exec.queue && ForTimer(s.exec.queue[t]) && ForTimer(s.exec.queue[u]) ::
          s.exec.queue[t].h == s.exec.queue[u].h ==> t == u)
  }

  lemma TimersFireOnce(r: Run)
    requires ValidRun(r)
    ensures TimersOnce(r.states[|r.steps|])
  {
    hide Inv;
    RunKeeps(r, |r.steps|);
    StateTimersOnce(r.states[|r.steps|]);
  }

  lemma StateTimersOnce(s: State)
    requires Inv(s)
    ensures TimersOnce(s)
  {
    hide Core, Machine, Handles, Timing, PlaceInv, PoolInv, CtlInv, KeyInv, ClosedInv, PendInv, ResumeInv, CallerInv;
    hide ArmedInv, TimerInv, SlotsOnce, ClosuresOnce;
    Split(s);
    SlotsAreOnce(s);
    ClosuresAreOnce(s);
  }

  lemma SlotsAreOnce(s: State)
    requires TimerInv(s)
    ensures SlotsOnce(s)
  {}

  lemma ClosuresAreOnce(s: State)
    requires ArmedInv(s)
    ensures ClosuresOnce(s)
  {
    forall h | h in s.timers.active
      ensures exists t :: t in s.exec.queue && s.exec.queue[t] == TimerClosure(h, s.timers.active[h])
    {
      assert s.timers.armed[h] in s.exec.queue;
    }
  }

  // --- sleeps ---

  // The script cleared the timer of this very handle.
  predicate Cleared(r: Run, n: nat, h: Handle)
    requires |r.states| == |r.steps| + 1 && n <= |r.steps|
  {
    exists i | 0 <= i < n :: ClearsAt(r.states[i], r.steps[i], h)
  }

  predicate ClearsAt(s: State, step: Step, h: Handle) {
    step == ScriptClearTimeout(h) && h in s.hist.issued
  }

  lemma ClearedNext(r: Run, n: nat, h: Handle)
    requires |r.states| == |r.steps| + 1 && 0 < n <= |r.steps|
    ensures Cleared(r, n, h) <==> Cleared(r, n - 1, h) || ClearsAt(r.states[n - 1], r.steps[n - 1], h)
  {
    if Cleared(r, n, h) {
      var i :| 0 <= i < n && ClearsAt(r.states[i], r.steps[i], h);
      assert i < n - 1 || i == n - 1;
    }
  }

  predicate SleepPending(s: State, h: Handle) {
    h in s.pending && h in s.hist.issued && s.hist.issued[h].sleep
  }

  lemma SleepNext(s: State, step: Step, h: Handle, cleared: bool)
    requires Inv(s) && Enabled(s, step)
    requires cleared ==> h in s.hist.issued
    requires SleepPending(s, h) ==> (h in s.timers.active <==> !cleared)
    ensures var s1 := Apply(s, step); var cleared1 := cleared || ClearsAt(s, step, h);
            && (cleared1 ==> h in s1.hist.issued)
            && (SleepPending(s1, h) ==> (h in s1.timers.active <==> !cleared1))
  {
    hide Inv, Over, Apply, Enabled, LeavesBehind;
    if h in s.hist.issued {
      StepDecides(s, step, h);
    } else if h in Apply(s, step).hist.issued {
      NewlyIssued(s, step, h);
    }
  }

  lemma {:induction false} SleepIs(r: Run, n: nat, h: Handle)
    requires ValidRun(r) && n <= |r.steps|
    ensures Cleared(r, n, h) ==> h in r.states[n].hist.issued
    ensures SleepPending(r.states[n], h) ==> (h in r.states[n].timers.active <==> !Cleared(r, n, h))
  {
    hide Inv, Apply, Enabled, Cleared, ClearsAt;
    if n > 0 {
      SleepIs(r, n - 1, h);
      RunKeeps(r, n - 1);
      assert StepAt(r, n - 1);
      SleepNext(r.states[n - 1], r.steps[n - 1], h, Cleared(r, n - 1, h));
      ClearedNext(r, n, h);
    } else {
      assert !Cleared(r, 0, h) by { NothingClearedYet(r, h); }
    }
  }

  lemma NothingClearedYet(r: Run, h: Handle)
    requires |r.states| == |r.steps| + 1
    ensures !Cleared(r, 0, h)
  {}

  // A live timer, with one closure of its own in the queue.
  ghost predicate LiveSleep(s: State, h: Handle) {
    && h in s.timers.active
    && (exists t :: t in s.exec.queue && s.exec.queue[t] == SleepExpiry(h))
    && (forall t, u |
          t in s.exec.queue && u in s.exec.queue && ForTimer(s.exec.queue[t]) && ForTimer(s.exec.queue[u]) ::
          s.exec.queue[t].h == h && s.exec.queue[u].h == h ==> t == u)
  }

  /**
   In every state of every run a sleep that is pending has a live timer, with one closure of
   its own, if and only if no script cleared that timer.
   */
  lemma SleepIsLiveExactly(r: Run, n: nat, h: Handle)
    requires ValidRun(r) && n <= |r.steps| && SleepPending(r.states[n], h)
    ensures LiveSleep(r.states[n], h) <==> !Cleared(r, n, h)
  {
    SleepIs(r, n, h);
    RunKeeps(r, n);
    StateTimersOnce(r.states[n]);
    if h in r.states[n].timers.active {
      IssuedIsKnown(r.states[n], h);
    }
    hide Inv, Cleared, ValidRun;
  }

  // The handle of a sleep is not resumed by this step, and stays unless it is purged.
  lemma PausedStep(s: State, step: Step, h: Handle)
    requires Inv(s) && Enabled(s, step) && s.paused && h in s.hist.issued && s.hist.issued[h].sleep
    ensures var s1 := Apply(s, step);
            && h in s1.hist.issued && s1.hist.issued[h].sleep && NotResumed(s, s1, h)
            && (h in s1.pending <==> h in s.pending && !PurgedBy(s, step, h))
  {
    hide Inv, Apply, Enabled, Over, LeavesBehind, PurgedBy;
    StepDecides(s, step, h);
    StepContinues(s, step, h);
    StepKeeps(s, step);
    NeverFires(s, h);
    NeverFires(Apply(s, step), h);
    PausedLogs(s, step, h);
    NextIsNotIssued(s);
    PendingStep(s, step, h);
    PausedIsNotWoken(s, step, h);
  }

  lemma PausedIsNotWoken(s: State, step: Step, h: Handle)
    requires Inv(s) && Enabled(s, step) && s.paused && h in s.hist.issued && s.hist.issued[h].sleep
    ensures !WokenBy(s, step, h)
  {
    hide Inv;
    if step.RunClosure? { QueuedCaller(s, step.t); }
  }

  lemma PausedLogs(s: State, step: Step, h: Handle)
    requires Inv(s) && Enabled(s, step) && s.paused && h in s.hist.issued && s.hist.issued[h].sleep
    ensures forall k | |s.hist.resumes| <= k < |Apply(s, step).hist.resumes| :: Apply(s, step).hist.resumes[k].h != h
  {
    hide Inv, Apply, Wakes;
    StepLogs(s, step);
    if step.RunClosure? {
      QueuedCaller(s, step.t);
      AsleepIsNotWoken(s, s.exec.queue[step.t], h);
    }
  }

  lemma AsleepIsNotWoken(s: State, c: Closure, h: Handle)
    requires s.paused && h in s.hist.issued && s.hist.issued[h].sleep && (c.Resume? ==> AsyncHandle(s, c.h))
    ensures !Wakes(s, c, h)
  {
  }

  lemma NeverFires(s: State, h: Handle)
    requires Inv(s) && h in s.hist.issued
    ensures s.timers.fired[h] == 0
  {
    Split(s);
    hide Core, Machine, Handles, PlaceInv, ArmedInv;
  }

  predicate PausedThroughout(r: Run, i: nat, j: nat)
    requires j <= |r.states|
  {
    forall k | i <= k < j :: r.states[k].paused
  }

  // Some step between the two states ended its coroutine, found it not resumable, or emptied the table.
  predicate PurgedIn(r: Run, i: nat, j: nat, h: Handle)
    requires |r.states| == |r.steps| + 1 && j <= |r.steps|
  {
    exists k | i <= k < j :: PurgedBy(r.states[k], r.steps[k], h)
  }

  lemma PurgedNext(r: Run, i: nat, j: nat, h: Handle)
    requires |r.states| == |r.steps| + 1 && i < j <= |r.steps|
    ensures PurgedIn(r, i, j, h) <==> PurgedIn(r, i, j - 1, h) || PurgedBy(r.states[j - 1], r.steps[j - 1], h)
  {
    hide PurgedBy;
    if PurgedIn(r, i, j, h) {
      var k :| i <= k < j && PurgedBy(r.states[k], r.steps[k], h);
      assert k < j - 1 || k == j - 1;
    }
  }

  lemma {:induction false} PausedRun(r: Run, i: nat, j: nat, h: Handle)
    requires ValidRun(r) && i <= j <= |r.steps| && PausedThroughout(r, i, j) && SleepPending(r.states[i], h)
    ensures h in r.states[j].hist.issued && r.states[j].hist.issued[h].sleep
    ensures NotResumed(r.states[i], r.states[j], h) && (h in r.states[j].pending <==> !PurgedIn(r, i, j, h))
  {
    hide Inv, Apply, Enabled, PurgedIn, PurgedBy;
    if i < j {
      PausedRun(r, i, j - 1, h);
      RunKeeps(r, j - 1);
      assert StepAt(r, j - 1);
      PausedStep(r.states[j - 1], r.steps[j - 1], h);
      PurgedNext(r, i, j, h);
      StepContinues(r.states[j - 1], r.steps[j - 1], h);
      RunContinues(r, i, j - 1, h);
      NotResumedChains(r.states[i], r.states[j - 1], r.states[j], h);
    } else {
      NothingPurgedYet(r, i, h);
    }
  }

  lemma NothingPurgedYet(r: Run, i: nat, h: Handle)
    requires |r.states| == |r.steps| + 1 && i <= |r.steps|
    ensures !PurgedIn(r, i, i, h)
  {}

  lemma NotResumedChains(a: State, b: State, c: State, h: Handle)
    requires NotResumed(a, b, h) && NotResumed(b, c, h) && a.hist.resumes <= b.hist.resumes <= c.hist.resumes
    ensures NotResumed(a, c, h)
  {
    assert forall k | |a.hist.resumes| <= k < |b.hist.resumes| :: c.hist.resumes[k] == b.hist.resumes[k];
  }

  /**
   However long a pause lasts and however often its timer is armed again, a sleeper is not
   resumed. It stays pending exactly as long as no step purges it, and then its timer is live
   if and only if no script cleared it.
   */
  lemma PausedSleepWaits(r: Run, i: nat, j: nat, h: Handle)
    requires ValidRun(r) && i <= j <= |r.steps| && PausedThroughout(r, i, j) && SleepPending(r.states[i], h)
    ensures NotResumed(r.states[i], r.states[j], h)
    ensures h in r.states[j].pending <==> !PurgedIn(r, i, j, h)
    ensures h in r.states[j].pending ==> (LiveSleep(r.states[j], h) <==> !Cleared(r, j, h))
  {
    PausedRun(r, i, j, h);
    hide LiveSleep, Cleared, PurgedIn;
    if h in r.states[j].pending { SleepIsLiveExactly(r, j, h); }
  }

  /**
   The first expiry that finds the runtime running resumes a sleeper that was never cleared,
   in its own checkout, and then its handle is done. Only a coroutine that the script itself
   resumed or closed, or one whose handle was left behind, is not resumed.
   */
  lemma SleeperWakes(r: Run, n: nat, t: nat, ch: Choice, h: Handle)
    requires ValidRun(r) && n <= |r.steps| && Enabled(r.states[n], RunClosure(t, ch))
    requires r.states[n].exec.queue[t] == SleepExpiry(h) && !r.states[n].paused
    requires SleepPending(r.states[n], h) && !Cleared(r, n, h) && !LeftBehind(r, n, h)
    requires var s := r.states[n]; IsScriptCo(s, s.pending[h]) ==> SuspendedAt(s.lua, s.pending[h])
    ensures var s := r.states[n]; var s1 := Apply(s, RunClosure(t, ch));
            && s1.hist.resumes == s.hist.resumes + [Resumption(h, s.pending[h], s.hist.issued[h].epoch, [])]
            && Done(s1, h)
  {
    var s := r.states[n];
    hide Inv, Cleared, LeftBehind, Apply, StepAt;
    RunKeeps(r, n);
    SleepIs(r, n, h);
    UseIs(r, n, h);
    PendingWasIssued(s, h);
    if s.lua.cos[s.pending[h]].kind.Pooled? { OutIsSuspended(s, s.pending[h]); }
    ExpiryResumes(s, t, ch, h);
  }

  lemma ExpiryResumes(s: State, t: nat, ch: Choice, h: Handle)
    requires Inv(s) && Enabled(s, RunClosure(t, ch)) && s.exec.queue[t] == SleepExpiry(h) && !s.paused
    requires SleepPending(s, h) && h in s.timers.active && SuspendedAt(s.lua, s.pending[h])
    ensures var s1 := Apply(s, RunClosure(t, ch));
            && s1.hist.resumes == s.hist.resumes + [Resumption(h, s.pending[h], s.lua.cos[s.pending[h]].epoch, [])]
            && Done(s1, h)
  {
    IssuedIsKnown(s, h);
    hide Inv, SetSt;
  }
}
