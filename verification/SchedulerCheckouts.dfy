/**
 Who is resumed for a handle. In every run each handle causes at most one resume, of the
 coroutine that obtained it; which checkout of that coroutine it reaches is decided exactly.
 */
module SchedulerCheckouts {
  import opened SchedulerState
  import opened SchedulerSteps
  import opened SchedulerInvariant
  import opened SchedulerKeeps
  import opened SchedulerSafety
  import opened SchedulerProgress
  import opened SchedulerUses
  import opened SchedulerLogs
  import opened SchedulerRuns

  // --- the use in which a handle was obtained ---

  // A module body ended with this very handle pending.
  predicate LeftBehind(r: Run, n: nat, h: Handle)
    requires |r.states| == |r.steps| + 1 && n <= |r.steps|
  {
    exists i | 0 <= i < n :: LeavesBehind(r.states[i], r.steps[i], h)
  }

  // Step n - 1 added to what was left behind, or nothing was.
  lemma LeftBehindNext(r: Run, n: nat, h: Handle)
    requires |r.states| == |r.steps| + 1 && 0 < n <= |r.steps|
    ensures LeftBehind(r, n, h) <==> LeftBehind(r, n - 1, h) || LeavesBehind(r.states[n - 1], r.steps[n - 1], h)
  {
    if LeftBehind(r, n, h) {
      var i :| 0 <= i < n && LeavesBehind(r.states[i], r.steps[i], h);
      assert i < n - 1 || i == n - 1;
    }
  }

  // A handle issued by the step is in its use, and as a sleep it has a timer.
  lemma NewlyIssued(s: State, step: Step, h: Handle)
    requires Inv(s) && Enabled(s, step) && h !in s.hist.issued && h in Apply(s, step).hist.issued
    ensures var s1 := Apply(s, step);
            && step.ScriptPark? && !Over(s1, h) && (s1.hist.issued[h].sleep ==> h in s1.timers.active)
  {
    hide Core, PlaceInv, Over, TopKnown;
    StepLogs(s, step);
    if step.ScriptPark? {
      TopIsKnown(s);
      ParkIssues(s, step.sleep);
    }
    hide Apply, Enabled;
  }

  // One step, seen by the history of one handle.
  lemma UseNext(s: State, step: Step, h: Handle, left: bool)
    requires Inv(s) && Enabled(s, step) && Inv(Apply(s, step))
    requires left ==> h in s.hist.issued && Over(s, h)
    requires h in s.pending ==> h in s.hist.issued && (Over(s, h) ==> left)
    ensures var s1 := Apply(s, step); var left1 := left || LeavesBehind(s, step, h);
            && (left1 ==> h in s1.hist.issued && Over(s1, h))
            && (h in s1.pending ==> h in s1.hist.issued && (Over(s1, h) ==> left1))
  {
    var s1 := Apply(s, step);
    hide Inv, Over, Apply, Enabled;
    if h in s1.pending { PendingWasIssued(s1, h); }
    if h in s.hist.issued {
      StepDecides(s, step, h);
    } else if h in s1.hist.issued {
      NewlyIssued(s, step, h);
    }
  }

  lemma {:induction false} UseIs(r: Run, n: nat, h: Handle)
    requires ValidRun(r) && n <= |r.steps|
    ensures LeftBehind(r, n, h) ==> h in r.states[n].hist.issued && Over(r.states[n], h)
    ensures h in r.states[n].pending ==>
              h in r.states[n].hist.issued && (Over(r.states[n], h) ==> LeftBehind(r, n, h))
  {
    hide Inv, Over, Apply, Enabled, LeavesBehind;
    if n > 0 {
      UseIs(r, n - 1, h);
      RunKeeps(r, n - 1);
      RunKeeps(r, n);
      assert StepAt(r, n - 1);
      UseNext(r.states[n - 1], r.steps[n - 1], h, LeftBehind(r, n - 1, h));
      LeftBehindNext(r, n, h);
    }
  }

  // The pending handle's coroutine is the one that obtained it, still in the same use.
  predicate Current(s: State, h: Handle)
    requires h in s.pending
  {
    h in s.hist.issued && s.hist.issued[h].co == s.pending[h] && !Over(s, h)
  }

  /**
   In every state of every run a pending handle belongs to the coroutine that obtained it,
   in the use in which it did, if and only if no module body ended with this handle pending.
   */
  lemma CurrentExactly(r: Run, n: nat, h: Handle)
    requires ValidRun(r) && n <= |r.steps| && h in r.states[n].pending
    ensures Current(r.states[n], h) <==> !LeftBehind(r, n, h)
  {
    RunKeeps(r, n);
    PendingWasIssued(r.states[n], h);
    UseIs(r, n, h);
    hide Inv, Over, LeftBehind, ValidRun;
  }

  predicate NoStale(s: State) {
    forall h | h in s.pending :: Current(s, h)
  }

  ghost predicate Clean(r: Run)
    requires |r.states| == |r.steps| + 1
  {
    forall h: Handle :: !LeftBehind(r, |r.steps|, h)
  }

  /** All pending handles are current through a whole run if and only if nothing was left behind. */
  lemma NoStaleExactly(r: Run)
    requires ValidRun(r)
    ensures (forall n | 0 <= n <= |r.steps| :: NoStale(r.states[n])) <==> Clean(r)
  {
    hide Over, LeavesBehind;
    if Clean(r) {
      forall n, h | 0 <= n <= |r.steps| && h in r.states[n].pending ensures Current(r.states[n], h) {
        CurrentExactly(r, n, h);
        LeftBehindGrows(r, n, h);
      }
    } else {
      var h :| LeftBehind(r, |r.steps|, h);
      var i := LeftPending(r, h);
      CurrentExactly(r, i + 1, h);
      assert !NoStale(r.states[i + 1]);
    }
  }

  lemma LeftBehindGrows(r: Run, n: nat, h: Handle)
    requires |r.states| == |r.steps| + 1 && n <= |r.steps|
    ensures LeftBehind(r, n, h) ==> LeftBehind(r, |r.steps|, h)
  {
    hide LeavesBehind;
  }

  lemma LeftPending(r: Run, h: Handle) returns (i: nat)
    requires ValidRun(r) && LeftBehind(r, |r.steps|, h)
    ensures i < |r.steps| && LeftBehind(r, i + 1, h) && h in r.states[i + 1].pending
  {
    hide Inv, LeavesBehind;
    var k :| 0 <= k < |r.steps| && LeavesBehind(r.states[k], r.steps[k], h);
    i := k;
    RunKeeps(r, k);
    assert StepAt(r, k);
    LeftIsPending(r.states[k], r.steps[k], h);
    hide Apply, Enabled;
  }

  lemma LeftIsPending(s: State, step: Step, h: Handle)
    requires Inv(s) && Enabled(s, step) && LeavesBehind(s, step, h)
    ensures h in Apply(s, step).pending
  {
    hide Core, PlaceInv, EndScript, TopKnown, Known, Over;
    TopIsKnown(s);
    PendingWasIssued(s, h);
    IssuedIsKnown(s, h);
    LeftBehindIsOver(s, step.out, h);
  }

  /**
   Each handle causes at most one lua_resume, of the coroutine that obtained it; and it is in
   the checkout that obtained it if and only if no module body ended with this handle pending.
   */
  lemma ResumesOwnCheckout(r: Run)
    requires ValidRun(r)
    ensures var hist := r.states[|r.steps|].hist;
            && (forall k | 0 <= k < |hist.resumes| :: ResumedRight(r, |r.steps|, k))
            && (forall i, j | 0 <= i < j < |hist.resumes| :: hist.resumes[i].h != hist.resumes[j].h)
  {
    var n := |r.steps|;
    forall k | 0 <= k < |r.states[n].hist.resumes| ensures ResumedRight(r, n, k) { ResumptionIs(r, n, k); }
    RunKeeps(r, n);
    Split(r.states[n]);
    hide Core, Machine, Handles, Timing, PlaceInv, CallerInv, PendInv, PoolInv, CtlInv, ArmedInv, TimerInv;
    hide LeftBehind;
  }

  predicate OwnCoroutine(hist: History, x: Resumption) {
    x.h in hist.issued && hist.issued[x.h].co == x.co
  }

  predicate OwnCheckout(hist: History, x: Resumption) {
    x.h in hist.issued && hist.issued[x.h].epoch == x.epoch
  }

  predicate ResumedRight(r: Run, n: nat, k: nat)
    requires |r.states| == |r.steps| + 1 && n <= |r.steps| && k < |r.states[n].hist.resumes|
  {
    var hist := r.states[n].hist;
    && OwnCoroutine(hist, hist.resumes[k])
    && (OwnCheckout(hist, hist.resumes[k]) <==> !LeftBehind(r, n, hist.resumes[k].h))
  }

  // A resumed handle is used up.
  lemma ResumedIsSpent(s: State, k: nat)
    requires Inv(s) && k < |s.hist.resumes|
    ensures OwnCoroutine(s.hist, s.hist.resumes[k]) && s.hist.resumes[k].h !in s.pending
  {
    Split(s);
    hide Core, Machine, Handles, Timing, PlaceInv, CallerInv, PendInv, PoolInv, CtlInv, ArmedInv, TimerInv;
  }

  lemma {:induction false} ResumptionIs(r: Run, n: nat, k: nat)
    requires ValidRun(r) && n <= |r.steps| && k < |r.states[n].hist.resumes|
    ensures ResumedRight(r, n, k)
  {
    hide Inv, Over, Apply, Enabled, LeftBehind, Resumes, Wakes;
    if n > 0 {
      assert StepAt(r, n - 1);
      var s, step := r.states[n - 1], r.steps[n - 1];
      RunKeeps(r, n - 1);
      RunKeeps(r, n);
      ResumedIsSpent(r.states[n], k);
      StepLogs(s, step);
      var h := r.states[n].hist.resumes[k].h;
      LeftBehindNext(r, n, h);
      if k < |s.hist.resumes| {
        EarlierResumption(s, step, k);
        ResumptionIs(r, n - 1, k);
      } else {
        UseIs(r, n - 1, h);
        AtMostOneResumption(s, step);
        LatestResumption(s, step, k);
      }
    }
  }

  lemma EarlierResumption(s: State, step: Step, k: nat)
    requires Inv(s) && Enabled(s, step) && k < |s.hist.resumes|
    ensures var s1 := Apply(s, step); var x := s.hist.resumes[k];
            && k < |s1.hist.resumes| && s1.hist.resumes[k] == x && !LeavesBehind(s, step, x.h)
            && x.h in s.hist.issued && x.h in s1.hist.issued && s1.hist.issued[x.h] == s.hist.issued[x.h]
  {
    ResumedIsSpent(s, k);
    StepContinues(s, step, 0);
    StepDecides(s, step, s.hist.resumes[k].h);
    hide Inv, Apply, Enabled, Over, DoneStill;
  }

  lemma LatestResumption(s: State, step: Step, k: nat)
    requires Inv(s) && Enabled(s, step) && k == |s.hist.resumes| < |Apply(s, step).hist.resumes|
    ensures var s1 := Apply(s, step); var x := s1.hist.resumes[k];
            && step.RunClosure? && !LeavesBehind(s, step, x.h) && x.h in s.pending && s1.hist.issued == s.hist.issued
            && x.h in s.hist.issued && (OwnCheckout(s.hist, x) <==> !Over(s, x.h))
  {
    StepLogs(s, step);
    PendingWasIssued(s, Apply(s, step).hist.resumes[k].h);
    hide Inv, Apply, Enabled, Wakes;
  }

  /** A completion that comes after its coroutine was recycled changes nothing, unless it was left behind. */
  lemma LateCompletionIsIgnored(r: Run, n: nat, t: nat, ch: Choice, h: Handle)
    requires ValidRun(r) && n <= |r.steps| && Enabled(r.states[n], RunClosure(t, ch))
    requires h in r.states[n].hist.issued && Over(r.states[n], h) && !LeftBehind(r, n, h)
    requires var c := r.states[n].exec.queue[t]; (c.Resume? || c.SleepExpiry?) && c.h == h
    ensures Apply(r.states[n], RunClosure(t, ch)) == Dequeue(r.states[n], t)
  {
    RunKeeps(r, n);
    UseIs(r, n, h);
    IssuedIsKnown(r.states[n], h);
    hide Inv, Over, LeftBehind, ValidRun;
  }

  /**
   A completion of a pending handle resumes its coroutine in its own checkout with the values
   it brings, interrupted or not, and then the handle is done. Only a coroutine that the script
   itself resumed or closed, or one whose handle was left behind, is not resumed.
   */
  lemma CompletionWakes(r: Run, n: nat, t: nat, ch: Choice, h: Handle)
    requires ValidRun(r) && n <= |r.steps| && Enabled(r.states[n], RunClosure(t, ch)) && !r.states[n].shuttingDown
    requires var c := r.states[n].exec.queue[t]; c.Resume? && c.h == h
    requires h in r.states[n].pending && !LeftBehind(r, n, h)
    requires var s := r.states[n]; IsScriptCo(s, s.pending[h]) ==> SuspendedAt(s.lua, s.pending[h])
    ensures var s := r.states[n]; var s1 := Apply(s, RunClosure(t, ch));
            && h in s.hist.issued
            && s1.hist.resumes ==
                 s.hist.resumes + [Resumption(h, s.pending[h], s.hist.issued[h].epoch, s.exec.queue[t].args)]
            && Done(s1, h)
  {
    var s := r.states[n];
    hide Inv, LeftBehind, Apply, StepAt;
    RunKeeps(r, n);
    UseIs(r, n, h);
    PendingWasIssued(s, h);
    if s.lua.cos[s.pending[h]].kind.Pooled? { OutIsSuspended(s, s.pending[h]); }
    CompletionResumes(s, t, ch, h);
  }

  lemma CompletionResumes(s: State, t: nat, ch: Choice, h: Handle)
    requires Inv(s) && Enabled(s, RunClosure(t, ch)) && s.exec.queue[t].Resume? && s.exec.queue[t].h == h
    requires !s.shuttingDown && h in s.pending && h in s.hist.issued && SuspendedAt(s.lua, s.pending[h])
    ensures var s1 := Apply(s, RunClosure(t, ch)); var co := s.pending[h];
            && s1.hist.resumes == s.hist.resumes + [Resumption(h, co, s.lua.cos[co].epoch, s.exec.queue[t].args)]
            && Done(s1, h)
  {
    IssuedIsKnown(s, h);
    QueuedCaller(s, t);
    AsyncNotTimer(s, h);
    hide Inv, SetSt;
  }

  /** The pin table keeps alive what pending handles point at. */
  lemma PendingIsPinned(r: Run, n: nat, h: Handle)
    requires ValidRun(r) && n <= |r.steps|
    ensures r.states[n].pins == r.states[n].pending
    ensures h in r.states[n].pending ==> Kept(r.states[n], r.states[n].pending[h])
  {
    hide Inv, Kept, StepAt;
    RunKeeps(r, n);
    PinnedIsKept(r.states[n], h);
  }

  // The coroutine exists and the collector may not take it.
  predicate Kept(s: State, co: Co) {
    co in s.lua.cos && !Enabled(s, Collect(co))
  }

  lemma PinnedIsKept(s: State, h: Handle)
    requires Inv(s)
    ensures s.pins == s.pending && (h in s.pending ==> Kept(s, s.pending[h]))
  {
    hide Inv;
    PinsArePending(s);
    if h in s.pending {
      PendingWasIssued(s, h);
      assert s.pending[h] in s.pins.Values;
    }
  }

  /**
   The failure branch of CheckResumable is for coroutines of scripts: a coroutine of the pool
   gets there only through a handle left behind, and never while it is checked out.
   */
  lemma OnlyScriptCosFail(r: Run, n: nat, h: Handle)
    requires ValidRun(r) && n <= |r.steps|
    requires var s := r.states[n]; s.ctl == [] && h in s.pending && !SuspendedAt(s.lua, s.pending[h])
    ensures var s := r.states[n];
            && s.pending[h] !in s.pool.active && s.pending[h] !in s.completions
            && (IsScriptCo(s, s.pending[h]) || LeftBehind(r, n, h))
  {
    var s := r.states[n];
    hide Inv, LeftBehind;
    RunKeeps(r, n);
    FailedOnly(s, s.pending[h]);
    PendingWasIssued(s, h);
    UseIs(r, n, h);
  }

  lemma FailedOnly(s: State, co: Co)
    requires Inv(s) && s.ctl == [] && !SuspendedAt(s.lua, co)
    ensures co !in s.pool.active && co !in s.completions
    ensures co in s.lua.cos && s.lua.cos[co].kind.Pooled? ==> s.lua.cos[co].st.Fresh?
  {
    FailedIsNotOut(s, co);
    if co in s.lua.cos && s.lua.cos[co].kind.Pooled? && !s.lua.cos[co].st.Fresh? { OutIsSuspended(s, co); }
    hide Inv;
  }
}
