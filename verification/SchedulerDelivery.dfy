/** What is posted is run: over whole runs, closures stay queued until a step takes them. */
module SchedulerDelivery {
  import opened SchedulerState
  import opened Wrappers
  import opened SchedulerSteps
  import opened SchedulerInvariant
  import opened SchedulerKeeps
  import opened SchedulerProgress
  import opened SchedulerQueue
  import opened SchedulerRuns
  import opened SchedulerCheckouts

  predicate Waiting(s: State, t: nat, c: Closure) {
    t in s.exec.queue && s.exec.queue[t] == c
  }

  predicate ScheduledAt(s: State, step: Step, t: nat, c: Closure) {
    Scheduled(s, step) == Some(c) && s.exec.nextTicket == t
  }

  predicate RunsAt(s: State, step: Step, t: nat) {
    step.RunClosure? && step.t == t
  }

  predicate RunIn(r: Run, i: nat, j: nat, t: nat)
    requires |r.states| == |r.steps| + 1 && j <= |r.steps|
  {
    exists k | i <= k < j :: RunsAt(r.states[k], r.steps[k], t)
  }

  lemma RunInNext(r: Run, i: nat, j: nat, t: nat)
    requires |r.states| == |r.steps| + 1 && i < j <= |r.steps|
    ensures RunIn(r, i, j, t) <==> RunIn(r, i, j - 1, t) || RunsAt(r.states[j - 1], r.steps[j - 1], t)
  {
    if RunIn(r, i, j, t) {
      var k :| i <= k < j && RunsAt(r.states[k], r.steps[k], t);
      assert k < j - 1 || k == j - 1;
    }
  }

  lemma TicketsAreOld(s: State)
    requires Inv(s)
    ensures forall t | t in s.exec.queue :: t < s.exec.nextTicket
  {
    Split(s);
    hide Core, Machine, Handles, Timing, PlaceInv, PoolInv, CtlInv, KeyInv, ClosedInv, PendInv, ResumeInv;
    hide CallerInv, TimerInv;
  }

  // One ticket, across one step.
  lemma TicketStep(s: State, step: Step, t: nat, c: Closure)
    requires Inv(s) && Enabled(s, step)
    ensures var s1 := Apply(s, step);
            && s.exec.nextTicket <= s1.exec.nextTicket
            && (Waiting(s1, t, c) <==> (Waiting(s, t, c) && !RunsAt(s, step, t)) || ScheduledAt(s, step, t, c))
            && (ScheduledAt(s, step, t, c) ==> t < s1.exec.nextTicket)
  {
    hide Inv, Apply, Enabled, Scheduled;
    TicketsAreOld(s);
    QueueStep(s, step);
    TicketOf(s, step, Apply(s, step).exec, t, c);
    hide RunsAt, ScheduledAt, Queues;
  }

  lemma TicketOf(s: State, step: Step, exec1: Exec, t: nat, c: Closure)
    requires Queues(Left(s, step), Scheduled(s, step), exec1) && forall u | u in s.exec.queue :: u < s.exec.nextTicket
    ensures s.exec.nextTicket <= exec1.nextTicket && (ScheduledAt(s, step, t, c) ==> t < exec1.nextTicket)
    ensures t in exec1.queue && exec1.queue[t] == c <==>
              (Waiting(s, t, c) && !RunsAt(s, step, t)) || ScheduledAt(s, step, t, c)
  {
    hide Scheduled;
    LeftOf(s, step, t, c);
    hide Left, Waiting, RunsAt;
  }

  lemma LeftOf(s: State, step: Step, t: nat, c: Closure)
    ensures var exec := Left(s, step);
            && exec.nextTicket == s.exec.nextTicket && exec.queue.Keys <= s.exec.queue.Keys
            && (t in exec.queue && exec.queue[t] == c <==> Waiting(s, t, c) && !RunsAt(s, step, t))
  {}

  // --- the queue over a run ---

  predicate Owed(r: Run, n: nat, t: nat, c: Closure)
    requires |r.states| == |r.steps| + 1 && n <= |r.steps|
  {
    exists i | 0 <= i < n :: ScheduledAt(r.states[i], r.steps[i], t, c) && !RunIn(r, i + 1, n, t)
  }

  lemma OwedNext(r: Run, n: nat, t: nat, c: Closure)
    requires |r.states| == |r.steps| + 1 && 0 < n <= |r.steps|
    ensures Owed(r, n, t, c) <==>
              (Owed(r, n - 1, t, c) && !RunsAt(r.states[n - 1], r.steps[n - 1], t))
              || ScheduledAt(r.states[n - 1], r.steps[n - 1], t, c)
  {
    hide ScheduledAt, RunsAt;
    var s, step := r.states[n - 1], r.steps[n - 1];
    if Owed(r, n, t, c) {
      var i :| 0 <= i < n && ScheduledAt(r.states[i], r.steps[i], t, c) && !RunIn(r, i + 1, n, t);
      if i < n - 1 { RunInNext(r, i + 1, n, t); }
    }
    if Owed(r, n - 1, t, c) && !RunsAt(s, step, t) {
      var i :| 0 <= i < n - 1 && ScheduledAt(r.states[i], r.steps[i], t, c) && !RunIn(r, i + 1, n - 1, t);
      RunInNext(r, i + 1, n, t);
    }
    if ScheduledAt(s, step, t, c) { assert !RunIn(r, n, n, t); }
  }

  /** The queue holds exactly the closures that were scheduled and have not been run. */
  lemma {:induction false} QueueExactly(r: Run, n: nat, t: nat, c: Closure)
    requires ValidRun(r) && n <= |r.steps|
    ensures Waiting(r.states[n], t, c) <==> Owed(r, n, t, c)
  {
    hide Inv, Apply, Enabled, Waiting, ScheduledAt, RunsAt, Owed;
    if n == 0 {
      NothingYet(r, t, c);
    } else {
      QueueExactly(r, n - 1, t, c);
      RunKeeps(r, n - 1);
      assert StepAt(r, n - 1);
      TicketStep(r.states[n - 1], r.steps[n - 1], t, c);
      OwedNext(r, n, t, c);
    }
  }

  lemma NothingYet(r: Run, t: nat, c: Closure)
    requires ValidRun(r)
    ensures !Waiting(r.states[0], t, c) && !Owed(r, 0, t, c)
  {}

  // The step takes this closure.
  predicate TakesAt(s: State, step: Step, t: nat, c: Closure) {
    RunsAt(s, step, t) && Waiting(s, t, c)
  }

  /** A closure that is scheduled is there until a step takes it. */
  lemma {:induction false} ScheduledIsTaken(r: Run, i: nat, j: nat, t: nat, c: Closure)
    requires ValidRun(r) && i < j <= |r.steps| && ScheduledAt(r.states[i], r.steps[i], t, c)
    ensures Waiting(r.states[j], t, c) || exists k | i < k < j :: TakesAt(r.states[k], r.steps[k], t, c)
  {
    hide Inv, Apply, Enabled, Waiting, ScheduledAt, RunsAt;
    assert StepAt(r, j - 1);
    RunKeeps(r, j - 1);
    TicketStep(r.states[j - 1], r.steps[j - 1], t, c);
    if i < j - 1 { ScheduledIsTaken(r, i, j - 1, t, c); }
  }

  // --- completions ---

  // The handle is pending, and its coroutine can be resumed for it.
  predicate CanWake(r: Run, k: nat, h: Handle)
    requires |r.states| == |r.steps| + 1 && k <= |r.steps|
  {
    var s := r.states[k];
    h in s.pending && !LeftBehind(r, k, h) && (IsScriptCo(s, s.pending[h]) ==> SuspendedAt(s.lua, s.pending[h]))
  }

  // The coroutine of the handle is resumed in its own checkout with these values, and no more.
  predicate WokenWith(s: State, s1: State, h: Handle, args: seq<Value>) {
    && h in s.pending && h in s.hist.issued && Done(s1, h)
    && s1.hist.resumes == s.hist.resumes + [Resumption(h, s.pending[h], s.hist.issued[h].epoch, args)]
  }

  predicate Wakes(r: Run, k: nat, t: nat, h: Handle, args: seq<Value>)
    requires |r.states| == |r.steps| + 1 && k < |r.steps|
  {
    && TakesAt(r.states[k], r.steps[k], t, Resume(h, args))
    && (CanWake(r, k, h) && !r.states[k].shuttingDown ==> WokenWith(r.states[k], r.states[k + 1], h, args))
  }

  lemma TakenWakes(r: Run, k: nat, t: nat, h: Handle, args: seq<Value>)
    requires ValidRun(r) && k < |r.steps| && TakesAt(r.states[k], r.steps[k], t, Resume(h, args))
    ensures Wakes(r, k, t, h, args)
  {
    assert StepAt(r, k);
    if CanWake(r, k, h) && !r.states[k].shuttingDown {
      CompletionWakes(r, k, t, r.steps[k].choice, h);
    }
    hide Apply, Enabled, LeftBehind, Done;
  }

  /**
   A resume that was scheduled for a handle, by whomever, is queued until it is taken; and if
   the handle is pending then, and there is no shutdown, its coroutine gets exactly the values.
   */
  lemma ResumeArrives(r: Run, i: nat, j: nat, h: Handle, args: seq<Value>)
    requires ValidRun(r) && i < j <= |r.steps|
    requires Scheduled(r.states[i], r.steps[i]) == Some(Resume(h, args))
    ensures var t := r.states[i].exec.nextTicket;
            || Waiting(r.states[j], t, Resume(h, args))
            || exists k | i < k < j :: Wakes(r, k, t, h, args)
  {
    var t := r.states[i].exec.nextTicket;
    hide Scheduled, Waiting, Wakes;
    ScheduledIsTaken(r, i, j, t, Resume(h, args));
    if !Waiting(r.states[j], t, Resume(h, args)) {
      var k :| i < k < j && TakesAt(r.states[k], r.steps[k], t, Resume(h, args));
      TakenWakes(r, k, t, h, args);
    }
  }

  /** A completion arrives, interrupted or not: only a shutdown drops it. */
  lemma CompletionArrives(r: Run, i: nat, j: nat, h: Handle, args: seq<Value>)
    requires ValidRun(r) && i < j <= |r.steps| && r.steps[i] == PostResume(h, args) && !r.states[i].shuttingDown
    ensures var t := r.states[i].exec.nextTicket;
            || Waiting(r.states[j], t, Resume(h, args))
            || exists k | i < k < j :: Wakes(r, k, t, h, args)
  {
    ResumeArrives(r, i, j, h, args);
  }

  /** What a module body returns or raises arrives at the coroutine that required it. */
  lemma ModuleArrives(r: Run, i: nat, j: nat, caller: Handle)
    requires ValidRun(r) && i < j <= |r.steps| && !r.states[i].shuttingDown && r.steps[i].ScriptEnd?
    requires ScriptOnTop(r.states[i]) && r.states[i].ctl[|r.states[i].ctl| - 1].after == AfterRequire(caller)
    ensures var t := r.states[i].exec.nextTicket;
            match r.steps[i].out
            case Returned(values) =>
              var args := if values == [] || values[0] == NIL then [TRUE] else values;
              || Waiting(r.states[j], t, Resume(caller, args))
              || exists k | i < k < j :: Wakes(r, k, t, caller, args)
            case Raised(message) =>
              || Waiting(r.states[j], t, Resume(caller, [NIL, message]))
              || exists k | i < k < j :: Wakes(r, k, t, caller, [NIL, message])
            case Yielded(_) => true
  {
    if !r.steps[i].out.Yielded? { ResumeArrives(r, i, j, caller, ModuleValues(r.steps[i].out)); }
    hide Waiting, Wakes, ValidRun;
  }

  /** The same for a body that was waited for, when its handler runs. */
  lemma AwaitedModuleArrives(r: Run, i: nat, j: nat, caller: Handle)
    requires ValidRun(r) && i < j <= |r.steps| && !r.states[i].shuttingDown && r.steps[i].RunHandler?
    requires var ctl := r.states[i].ctl;
             && ctl != [] && ctl[|ctl| - 1].Deliver?
             && ctl[|ctl| - 1].handler.RequireDone? && ctl[|ctl| - 1].handler.caller == caller
    ensures var t := r.states[i].exec.nextTicket;
            match r.states[i].ctl[|r.states[i].ctl| - 1].result
            case Ok(values) =>
              var args := if values == [] || values[0] == NIL then [TRUE] else values;
              || Waiting(r.states[j], t, Resume(caller, args))
              || exists k | i < k < j :: Wakes(r, k, t, caller, args)
            case Failed(message) =>
              || Waiting(r.states[j], t, Resume(caller, [NIL, message]))
              || exists k | i < k < j :: Wakes(r, k, t, caller, [NIL, message])
            case _ => true
  {
    match r.states[i].ctl[|r.states[i].ctl| - 1].result {
      case Ok(values) => ResumeArrives(r, i, j, caller, ModuleValues(Returned(values)));
      case Failed(message) => ResumeArrives(r, i, j, caller, [NIL, message]);
      case _ =>
    }
    hide Waiting, Wakes, ValidRun;
  }

  /** What loadfile produced, or the message of a module that does not load, arrives likewise. */
  lemma LoadedArrives(r: Run, i: nat, j: nat, t: nat, ch: Choice, h: Handle)
    requires ValidRun(r) && i < j <= |r.steps| && Open(r.states[i])
    requires r.steps[i] == RunClosure(t, ch) && t in r.states[i].exec.queue
    requires var c := r.states[i].exec.queue[t];
             c == LoadFileRun(h) || (c == RequireRun(h) && !ch.loads && ch.args != [])
    ensures var u := r.states[i].exec.nextTicket;
            var args := if r.states[i].exec.queue[t].LoadFileRun? then ch.args else [NIL, ch.args[0]];
            || Waiting(r.states[j], u, Resume(h, args))
            || exists k | i < k < j :: Wakes(r, k, u, h, args)
  {
    ResumeArrives(r, i, j, h, if r.states[i].exec.queue[t].LoadFileRun? then ch.args else [NIL, ch.args[0]]);
    hide Waiting, Wakes, ValidRun;
  }
}
