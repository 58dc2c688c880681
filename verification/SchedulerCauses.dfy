/**
 Which result a handler gets, and why: in every run the results that are due or settled are
 exactly those that some step gave cause to.
 */
module SchedulerCauses {
  import opened SchedulerState
  import opened Wrappers
  import opened SchedulerSteps
  import opened SchedulerInvariant
  import opened SchedulerProgress
  import opened SchedulerLogs
  import opened SchedulerUses
  import opened SchedulerRuns
  import opened SchedulerHandlers
  import opened SchedulerPool

  // --- causes ---

  // A task is rejected when it is submitted, or when its turn comes, under either flag.
  predicate Rejects(s: State, step: Step, id: HandlerId) {
    && (s.shuttingDown || s.interrupted)
    && match step
       case PostTask(_) => id == s.hist.nextId
       case RunClosure(t, _) => t in s.exec.queue && s.exec.queue[t].Task? && s.exec.queue[t].id == id
       case _ => false
  }

  predicate FailsToLoad(s: State, step: Step, id: HandlerId) {
    && !s.shuttingDown && !s.interrupted && step.RunClosure? && !step.choice.loads
    && step.t in s.exec.queue && s.exec.queue[step.t] == Task(LoadScript, id)
  }

  // The handler waits for a coroutine that stands at `loc`.
  predicate AwaitsAt(s: State, id: HandlerId, loc: Location) {
    exists co <- s.completions ::
      s.completions[co].id == id && co in s.lua.cos && s.lua.cos[co].st == Suspended(loc)
  }

  predicate Passes(s: State, step: Step) {
    && !s.shuttingDown && step.RunClosure? && step.t in s.exec.queue && s.exec.queue[step.t].InterruptPass?
  }

  predicate Hears(s: State, step: Step, id: HandlerId) {
    step.ScriptEnd? && ScriptOnTop(s) && Heard(s) == Some(id)
  }

  // The step gives this handler this result.
  predicate Causes(s: State, step: Step, x: Settlement) {
    match x.result
    case Ok(values) => Hears(s, step, x.id) && step.out == Returned(values)
    case Failed(message) => Hears(s, step, x.id) && step.out == Raised(message)
    case LoadError => FailsToLoad(s, step, x.id)
    case Rejected => Rejects(s, step, x.id)
    case Interrupted(loc) => Passes(s, step) && AwaitsAt(s, x.id, loc)
    case ShutDown(loc) => step.HostShutsDown? && !s.shuttingDown && AwaitsAt(s, x.id, loc)
  }

  // --- results that are there ---

  predicate IsDue(c: Ctl, x: Settlement) {
    c.Deliver? && c.handler.id == x.id && c.result == x.result
  }

  predicate AmongDue(ctl: seq<Ctl>, x: Settlement) {
    exists k | 0 <= k < |ctl| :: IsDue(ctl[k], x)
  }

  // The handler's turn will come with this result, or it has come.
  predicate Given(s: State, x: Settlement) {
    x in s.hist.settled || AmongDue(s.ctl, x)
  }

  lemma DueAppends(a: seq<Ctl>, b: seq<Ctl>, x: Settlement)
    ensures AmongDue(a + b, x) <==> AmongDue(a, x) || AmongDue(b, x)
  {
    if AmongDue(a, x) {
      var k :| 0 <= k < |a| && IsDue(a[k], x);
      assert IsDue((a + b)[k], x);
    }
    if AmongDue(b, x) {
      var k :| 0 <= k < |b| && IsDue(b[k], x);
      assert IsDue((a + b)[|a| + k], x);
    }
  }

  lemma DueOne(c: Ctl, x: Settlement)
    ensures AmongDue([c], x) <==> IsDue(c, x)
  {
    assert IsDue([c][0], x) <==> IsDue(c, x);
  }

  // Two states with the same results.
  predicate SameGiven(s: State, s1: State) {
    s1.hist.settled == s.hist.settled && s1.ctl == s.ctl
  }

  lemma FramePushed(s: State, s1: State, co: Co, after: After, x: Settlement)
    requires s1.hist.settled == s.hist.settled && s1.ctl == s.ctl + [Frame(co, after)]
    ensures Given(s1, x) <==> Given(s, x)
  {
    DueAppends(s.ctl, [Frame(co, after)], x);
    DueOne(Frame(co, after), x);
  }

  lemma DuePushed(s: State, s1: State, hd: Handler, result: Result, x: Settlement)
    requires s1.hist.settled == s.hist.settled && s1.ctl == s.ctl + [Deliver(hd, result)]
    ensures Given(s1, x) <==> Given(s, x) || x == Settlement(hd.id, result)
  {
    DueAppends(s.ctl, [Deliver(hd, result)], x);
    DueOne(Deliver(hd, result), x);
  }

  lemma FramePopped(s: State, out: Outcome, x: Settlement)
    requires ScriptOnTop(s)
    ensures Given(PopFrame(s, out), x) <==> Given(s, x)
  {
    var n := |s.ctl| - 1;
    assert s.ctl == s.ctl[..n] + [s.ctl[n]];
    DueAppends(s.ctl[..n], [s.ctl[n]], x);
    DueOne(s.ctl[n], x);
    hide SetSt;
  }

  // --- the end of a script ---

  lemma ReleaseGiven(s: State, co: Co)
    ensures SameGiven(s, Release(s, co)) && SameGiven(s, Release(Purge(s, co), co))
  {
    hide SetSt, PoolRelease, HandlesOf;
  }

  lemma RecycleGiven(s: State, co: Co, out: Outcome, x: Settlement)
    requires !out.Yielded?
    ensures Given(Recycle(s, co, out), x) <==>
              Given(s, x) || (co in s.completions && x == Settlement(s.completions[co].id, ResultOf(out)))
  {
    var s1 := Purge(s, co);
    var s2 := s1.(completions := s1.completions - {co});
    assert SameGiven(s, s1) && s1.completions == s.completions by { hide HandlesOf; }
    ReleaseGiven(s1, co);
    ReleaseGiven(s2, co);
    if co in s.completions {
      DuePushed(Release(s2, co), Recycle(s, co, out), s.completions[co], ResultOf(out), x);
    }
    hide Release, Purge, ResultOf, AmongDue;
  }

  // Each second half gives one result, or none.
  lemma ReturnGiven(s: State, co: Co, id: HandlerId, caller: Handle, out: Outcome, x: Settlement)
    ensures Given(TaskReturned(s, co, id, out), x) <==>
              Given(s, x) || (!out.Yielded? && x == Settlement(id, ResultOf(out)))
    ensures Given(CallReturned(s, co, id, out), x) <==>
              Given(s, x) || (!out.Yielded? && x == Settlement(id, ResultOf(out)))
    ensures Given(ResumeReturned(s, co, out), x) <==>
              || Given(s, x)
              || (!out.Yielded? && co in s.completions && x == Settlement(s.completions[co].id, ResultOf(out)))
    ensures Given(RequireReturned(s, co, caller, out), x) <==> Given(s, x)
  {
    if !out.Yielded? {
      RecycleGiven(s, co, out, x);
      RecycleGiven(PutHandler(s, co, TaskPromise(id)), co, out, x);
      ReleaseGiven(s, co);
      DuePushed(Release(Purge(s, co), co), CallReturned(s, co, id, out), HostCallback(id), ResultOf(out), x);
      ReleaseGiven(PushResume(s, caller, RequireArgs(ResultOf(out))), co);
    }
    hide Recycle, Release, Purge, Schedule, ResultOf, AmongDue;
  }

  lemma PopKeepsWaiters(s: State, out: Outcome)
    requires ScriptOnTop(s)
    ensures PopFrame(s, out).completions == s.completions
  {
    hide SetSt;
  }

  lemma EndGives(s: State, out: Outcome, x: Settlement)
    requires TopKnown(s)
    ensures Given(EndScript(s, out), x) <==>
              Given(s, x) || (!out.Yielded? && Heard(s) == Some(x.id) && x.result == ResultOf(out))
  {
    var Frame(co, after) := s.ctl[|s.ctl| - 1];
    assert FirstRun(after) || after.ByScript? ==> co !in s.completions;
    FramePopped(s, out, x);
    PopKeepsWaiters(s, out);
    EndIs(s, out);
    hide TopKnown, EndScript, TaskReturned, ResumeReturned, CallReturned, RequireReturned, PopFrame, ResultOf, Given;
    var s0 := PopFrame(s, out);
    match after {
      case AfterTask(id) => ReturnGiven(s0, co, id, 0, out, x);
      case AfterCall(id) => ReturnGiven(s0, co, id, 0, out, x);
      case AfterRequire(caller) => ReturnGiven(s0, co, 0, caller, out, x);
      case _ => ReturnGiven(s0, co, 0, 0, out, x);
    }
  }

  // A result of a script is a cause by what the script did.
  lemma ResultIs(s: State, out: Outcome, x: Settlement)
    requires ScriptOnTop(s)
    ensures Causes(s, ScriptEnd(out), x) <==> !out.Yielded? && Heard(s) == Some(x.id) && x.result == ResultOf(out)
  {
    hide Heard, AwaitsAt;
  }

  lemma EndCauses(s: State, out: Outcome, x: Settlement)
    requires TopKnown(s)
    ensures Given(EndScript(s, out), x) <==> Given(s, x) || Causes(s, ScriptEnd(out), x)
  {
    EndGives(s, out, x);
    ResultIs(s, out, x);
    hide EndScript, Given, Causes, Heard;
  }

  // --- closures ---

  lemma EnterGiven(s: State, spare: Slot, after: After)
    ensures var s1 := Enter(s, spare, after);
            s1.hist == s.hist && s1.ctl == s.ctl + [Frame(AcquiredCo(s.pool, spare), after)]
    ensures SameGiven(s, LoadOnly(s, spare))
  {
    hide SetSt, LuaAcquire, PoolAcquire, PoolRelease;
  }

  lemma TaskGives(s: State, t: nat, ch: Choice, x: Settlement)
    requires t in s.exec.queue && s.exec.queue[t].Task?
    ensures Given(RunTask(s, t, ch.spare, ch.loads), x) <==> Given(s, x) || Causes(s, RunClosure(t, ch), x)
  {
    var s1, id := Dequeue(s, t), s.exec.queue[t].id;
    EnterGiven(s1, ch.spare, AfterTask(id));
    hide Enter, LoadOnly, AwaitsAt, AmongDue;
    if s.shuttingDown || s.interrupted {
      DuePushed(s1, RunTask(s, t, ch.spare, ch.loads), TaskPromise(id), Rejected, x);
    } else if s.exec.queue[t].kind.LoadScript? && !ch.loads {
      DuePushed(LoadOnly(s1, ch.spare), RunTask(s, t, ch.spare, ch.loads), TaskPromise(id), LoadError, x);
    } else {
      FramePushed(s1, RunTask(s, t, ch.spare, ch.loads), AcquiredCo(s.pool, ch.spare), AfterTask(id), x);
    }
  }

  lemma DoResumeGiven(s: State, h: Handle, args: seq<Value>, x: Settlement)
    ensures Given(DoResume(s, h, args), x) <==> Given(s, x)
  {
    if h in s.pending {
      if SuspendedAt(s.lua, s.pending[h]) {
        FramePushed(s, DoResume(s, h, args), s.pending[h], AfterResume, x);
      } else {
        ReleaseGiven(Record(s.(pins := s.pins - {h}, pending := s.pending - {h}), NotResumable(h)), s.pending[h]);
      }
    }
    hide Purge, Release, SetSt, AmongDue;
  }

  lemma GatedGiven(s: State, caller: Handle, spare: Slot, loads: bool, message: Value, args: seq<Value>, x: Settlement)
    ensures Given(RunRequire(s, caller, spare, loads, message), x) <==> Given(s, x)
    ensures Given(RunLoadFile(s, caller, spare, args), x) <==> Given(s, x)
  {
    EnterGiven(s, spare, AfterRequire(caller));
    FramePushed(s, Enter(s, spare, AfterRequire(caller)), AcquiredCo(s.pool, spare), AfterRequire(caller), x);
    hide Enter, LoadOnly, Schedule, AmongDue;
  }

  lemma SleepGiven(s: State, h: Handle, x: Settlement)
    ensures Given(RunSleepExpiry(s, h), x) <==> Given(s, x)
  {
    DoResumeGiven(s.(timers := s.timers.(active := s.timers.active - {h})), h, [], x);
    hide DoResume, Schedule, AmongDue;
  }

  lemma TimeoutGiven(s: State, h: Handle, fn: Ref, spare: Slot, x: Settlement)
    ensures Given(RunTimeoutExpiry(s, h, fn, spare), x) <==> Given(s, x)
  {
    if h in s.timers.active { TimeoutPushes(s, h, fn, spare, x); }
    hide AmongDue;
  }

  lemma TimeoutPushes(s: State, h: Handle, fn: Ref, spare: Slot, x: Settlement)
    requires h in s.timers.active
    ensures Given(RunTimeoutExpiry(s, h, fn, spare), x) <==> Given(s, x)
  {
    hide SetSt, LuaAcquire, PoolAcquire, Unref, AmongDue;
    FramePushed(s, RunTimeoutExpiry(s, h, fn, spare), AcquiredCo(s.pool, spare), AfterTimeout, x);
  }

  lemma PassGives(s: State, a: seq<Co>, b: seq<Co>, x: Settlement)
    requires Enumerates(a, s.pool.active.Keys) && Enumerates(b, s.completions.Keys) && !s.shuttingDown
    requires forall co <- s.completions :: SuspendedAt(s.lua, co)
    ensures Given(RunInterruptPass(s, a, b), x) <==>
              Given(s, x) || (x.result.Interrupted? && AwaitsAt(s, x.id, x.result.loc))
  {
    PassCtl(s, a, b);
    DueAppends(s.ctl, InterruptedItems(s, b), x);
    ItemsAre(s, b, x);
    hide RunInterruptPass, InterruptedItems, AmongDue, AwaitsAt;
  }

  lemma PassCtl(s: State, a: seq<Co>, b: seq<Co>)
    requires Enumerates(a, s.pool.active.Keys) && Enumerates(b, s.completions.Keys) && !s.shuttingDown
    ensures var s1 := RunInterruptPass(s, a, b);
            s1.ctl == s.ctl + InterruptedItems(s, b) && s1.hist.settled == s.hist.settled
  {
    hide CancelAllLua, ResetAll, PoolReleaseAll, InterruptedItems, PlacesAfterSwap;
  }

  lemma ItemsAre(s: State, order: seq<Co>, x: Settlement)
    requires Enumerates(order, s.completions.Keys) && forall co <- s.completions :: SuspendedAt(s.lua, co)
    ensures AmongDue(InterruptedItems(s, order), x) <==> x.result.Interrupted? && AwaitsAt(s, x.id, x.result.loc)
  {
    var items := InterruptedItems(s, order);
    if AmongDue(items, x) {
      var k :| 0 <= k < |items| && IsDue(items[k], x);
      assert order[k] in s.completions;
    }
    if x.result.Interrupted? && AwaitsAt(s, x.id, x.result.loc) {
      var co :| co in s.completions && s.completions[co].id == x.id && s.lua.cos[co].st == Suspended(x.result.loc);
      var k :| 0 <= k < |order| && order[k] == co;
      assert IsDue(items[k], x);
    }
  }

  lemma ClosureCauses(s: State, t: nat, ch: Choice, x: Settlement)
    requires Enabled(s, RunClosure(t, ch)) && forall co <- s.completions :: SuspendedAt(s.lua, co)
    ensures Given(ApplyClosure(s, t, ch), x) <==> Given(s, x) || Causes(s, RunClosure(t, ch), x)
  {
    var s1 := Dequeue(s, t);
    assert Given(s1, x) <==> Given(s, x);
    assert forall id, loc :: AwaitsAt(s1, id, loc) <==> AwaitsAt(s, id, loc);
    hide RunTask, DoResume, RunRequire, RunLoadFile, RunInterruptPass, RunSleepExpiry, RunTimeoutExpiry, Given;
    hide SuspendedAt, AwaitsAt;
    match s.exec.queue[t] {
      case Task(_, _) => TaskGives(s, t, ch, x);
      case Resume(h, args) => DoResumeGiven(s1, h, args, x);
      case RequireRun(h) => GatedGiven(s1, h, ch.spare, ch.loads, if ch.args == [] then 0 else ch.args[0], [], x);
      case LoadFileRun(h) => GatedGiven(s1, h, ch.spare, ch.loads, 0, ch.args, x);
      case InterruptPass =>
        if !s.shuttingDown { PassGives(s1, ch.coOrder, ch.handlerOrder, x); } else { PassStops(s1, ch); }
      case ClearFlag => ClearGiven(s1, x);
      case SleepExpiry(h) => SleepGiven(s1, h, x);
      case TimeoutExpiry(h, fn) => TimeoutGiven(s1, h, fn, ch.spare, x);
    }
  }

  lemma PassStops(s: State, ch: Choice)
    requires Enumerates(ch.coOrder, s.pool.active.Keys) && Enumerates(ch.handlerOrder, s.completions.Keys)
    requires s.shuttingDown
    ensures RunInterruptPass(s, ch.coOrder, ch.handlerOrder) == s
  {}

  lemma ClearGiven(s: State, x: Settlement)
    ensures Given(s.(interrupted := false), x) <==> Given(s, x)
  {}

  // --- the host ---

  lemma DownGives(s: State, order: seq<Co>, x: Settlement)
    requires Enumerates(order, s.completions.Keys) && forall co <- s.completions :: SuspendedAt(s.lua, co)
    ensures Given(Shutdown(s, order), x) <==> Given(s, x) || Causes(s, HostShutsDown(order), x)
  {
    if !s.shuttingDown {
      DownLog(s, order);
      SettlementsAre(s, order, x);
    }
    hide ShutdownSettlements, PlacesAfterShutdown, PoolShutdownLua, CancelAllLua, AmongDue, AwaitsAt, SuspendedAt;
  }

  lemma SettlementsAre(s: State, order: seq<Co>, x: Settlement)
    requires Enumerates(order, s.completions.Keys) && forall co <- s.completions :: SuspendedAt(s.lua, co)
    ensures x in ShutdownSettlements(s, order) <==> x.result.ShutDown? && AwaitsAt(s, x.id, x.result.loc)
  {
    var log := ShutdownSettlements(s, order);
    if x in log {
      var k :| 0 <= k < |log| && log[k] == x;
      assert order[k] in s.completions;
    }
    if x.result.ShutDown? && AwaitsAt(s, x.id, x.result.loc) {
      var co :| co in s.completions && s.completions[co].id == x.id && s.lua.cos[co].st == Suspended(x.result.loc);
      var k :| 0 <= k < |order| && order[k] == co;
      assert log[k] == x;
    }
  }

  lemma CancelGiven(s: State, co: Co)
    ensures SameGiven(s, CancelCall(s, co))
  {
    var s1 := if co in s.completions then
                s.(completions := s.completions - {co},
                   hist := s.hist.(cancelled := s.hist.cancelled + {s.completions[co].id},
                                   place := s.hist.place[s.completions[co].id := Cancelled]))
              else s;
    ReleaseGiven(s1, co);
    hide Purge, Release;
  }

  lemma CallGiven(s: State, spare: Slot, x: Settlement)
    ensures Given(HostCall(s, spare), x) <==> Given(s, x)
  {
    var id := s.hist.nextId;
    EnterGiven(NewHandlerId(s), spare, AfterCall(id));
    FramePushed(s, HostCall(s, spare), AcquiredCo(s.pool, spare), AfterCall(id), x);
    hide Enter, AmongDue;
  }

  // --- scripts and other threads ---

  lemma TaskSubmitted(s: State, kind: TaskKind, x: Settlement)
    ensures Given(PushTask(s, kind), x) <==> Given(s, x) || Causes(s, PostTask(kind), x)
  {
    hide Schedule, AmongDue, AwaitsAt;
  }

  lemma HandlerGiven(s: State, x: Settlement)
    requires s.ctl != [] && s.ctl[|s.ctl| - 1].Deliver?
    ensures Given(DeliverTop(s), x) <==> Given(s, x)
  {
    var n := |s.ctl| - 1;
    assert s.ctl == s.ctl[..n] + [s.ctl[n]];
    DueAppends(s.ctl[..n], [s.ctl[n]], x);
    DueOne(s.ctl[n], x);
    DeliverPopsStack(s);
    hide DeliverTop, AmongDue;
  }

  lemma PostedGiven(s: State, step: Step)
    requires Enabled(s, step) && Posted(step) && !step.PostTask?
    ensures SameGiven(s, Apply(s, step))
  {
    hide ApplyClosure, EndScript, HostCall, CancelCall, Shutdown, Park, TimeoutSet, CancelTimer, Created, DeliverTop;
    hide Schedule, PushTask;
  }

  lemma ParkGiven(s: State, co: Co, sleep: bool)
    ensures SameGiven(s, Park(s, co, sleep))
  {
    hide Schedule;
  }

  lemma ScriptGiven(s: State, step: Step, x: Settlement)
    requires Enabled(s, step) && (FromScript(step) || step.ScriptPark?)
    ensures Given(Apply(s, step), x) <==> Given(s, x)
  {
    hide ApplyClosure, EndScript, HostCall, CancelCall, Shutdown, SetSt, Schedule, CancelTimerLua, DeliverTop;
    hide PushTask, Interrupt, PushResume, PushGated, Park, AmongDue;
    if step.ScriptPark? { ParkGiven(s, Top(s), step.sleep); }
    if step.ScriptResume? { FramePushed(s, Apply(s, step), step.co, ByScript, x); }
  }

  lemma OtherCausesNothing(s: State, step: Step, x: Settlement)
    requires !step.ScriptEnd? && !step.RunClosure? && !step.HostShutsDown? && !step.PostTask?
    ensures !Causes(s, step, x)
  {}

  /** After a step, the results that are due or settled are those before it and those it gave cause to. */
  lemma CauseStep(s: State, step: Step, x: Settlement)
    requires Inv(s) && Enabled(s, step)
    ensures Given(Apply(s, step), x) <==> Given(s, x) || Causes(s, step, x)
  {
    hide Core, PlaceInv, Given, Causes, TopKnown, SuspendedAt;
    if s.ctl == [] {
      forall co <- s.completions ensures SuspendedAt(s.lua, co) { CompletionSuspended(s, co); }
    }
    if step.ScriptEnd? {
      TopIsKnown(s);
      EndCauses(s, step.out, x);
      hide EndScript;
    } else if step.RunClosure? {
      ClosureCauses(s, step.t, step.choice, x);
      hide ApplyClosure;
    } else if step.HostShutsDown? {
      DownGives(s, step.order, x);
      hide Shutdown;
    } else if step.PostTask? {
      TaskSubmitted(s, step.kind, x);
      hide PushTask;
    } else {
      OtherCausesNothing(s, step, x);
      OtherGiven(s, step, x);
      hide Apply;
    }
  }

  lemma OtherGiven(s: State, step: Step, x: Settlement)
    requires Enabled(s, step) && !step.ScriptEnd? && !step.RunClosure? && !step.HostShutsDown? && !step.PostTask?
    ensures Given(Apply(s, step), x) <==> Given(s, x)
  {
    if step.HostCalls? {
      CallGiven(s, step.spare, x);
      hide HostCall, Given;
    } else if step.HostCancels? {
      CancelGiven(s, step.co);
      hide CancelCall;
    } else if step.RunHandler? {
      HandlerGiven(s, x);
      hide DeliverTop, Given;
    } else if Posted(step) {
      PostedGiven(s, step);
      hide Apply;
    } else {
      ScriptGiven(s, step, x);
      hide Apply, Given;
    }
  }

  // --- whole runs ---

  predicate CausedIn(r: Run, n: nat, x: Settlement)
    requires |r.states| == |r.steps| + 1 && n <= |r.steps|
  {
    exists i | 0 <= i < n :: Causes(r.states[i], r.steps[i], x)
  }

  /** In every state of every run a handler has been given a result if and only if some step caused it. */
  lemma {:induction false} GivenExactly(r: Run, n: nat, x: Settlement)
    requires ValidRun(r) && n <= |r.steps|
    ensures Given(r.states[n], x) <==> CausedIn(r, n, x)
  {
    hide Inv, Apply, Enabled, Given, Causes;
    if n == 0 {
      NothingGiven(r, x);
    } else {
      GivenExactly(r, n - 1, x);
      RunKeeps(r, n - 1);
      assert StepAt(r, n - 1);
      CauseStep(r.states[n - 1], r.steps[n - 1], x);
      CausedNext(r, n, x);
    }
  }

  lemma NothingGiven(r: Run, x: Settlement)
    requires ValidRun(r)
    ensures !Given(r.states[0], x) && !CausedIn(r, 0, x)
  {}

  lemma CausedNext(r: Run, n: nat, x: Settlement)
    requires |r.states| == |r.steps| + 1 && 0 < n <= |r.steps|
    ensures CausedIn(r, n, x) <==> CausedIn(r, n - 1, x) || Causes(r.states[n - 1], r.steps[n - 1], x)
  {
    hide Causes;
    if CausedIn(r, n, x) {
      var i :| 0 <= i < n && Causes(r.states[i], r.steps[i], x);
      assert i < n - 1 || i == n - 1;
    }
  }

  /**
   When the call stack is empty, the handlers that are settled are exactly those that a step
   gave a result to, each with that result and no other: `Ok` with the values that a script
   returned, `Failed` with what it raised, and so on.
   */
  lemma SettledExactly(r: Run, n: nat, x: Settlement)
    requires ValidRun(r) && n <= |r.steps| && r.states[n].ctl == []
    ensures x in r.states[n].hist.settled <==> CausedIn(r, n, x)
    ensures x in r.states[n].hist.settled ==>
              forall y <- r.states[n].hist.settled :: y.id == x.id ==> y == x
  {
    GivenExactly(r, n, x);
    assert !AmongDue(r.states[n].ctl, x);
    if x in r.states[n].hist.settled { SettledOnce(r, n, x); }
    hide CausedIn, ValidRun;
  }
}
