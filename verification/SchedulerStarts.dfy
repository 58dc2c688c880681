/** Which scripts start to run, on which coroutine, and that nothing else does. */
module SchedulerStarts {
  import opened SchedulerState
  import opened Wrappers
  import opened SchedulerSteps
  import opened SchedulerInvariant
  import opened SchedulerProgress
  import opened SchedulerLogs
  import opened SchedulerUses
  import opened SchedulerPending
  import opened SchedulerQueue
  import opened SchedulerParks

  // A completion that finds its coroutine suspended.
  function WakeUp(s: State, h: Handle): Option<After> {
    if h in s.pending && Sleeps(s.lua.cos, s.pending[h]) then Some(AfterResume) else None
  }

  // For whom the step enters a script: new work under clear flags, a completion unless it is
  // shutting down, an expiry unless it was cancelled (and, for a sleep, paused).
  function Started(s: State, step: Step): Option<After> {
    match step
    case HostCalls(_) => Some(AfterCall(s.hist.nextId))
    case ScriptResume(_) => Some(ByScript)
    case RunClosure(t, ch) =>
      if t !in s.exec.queue then None else
      (match s.exec.queue[t]
       case Task(kind, id) => if Open(s) && (kind.CallRef? || ch.loads) then Some(AfterTask(id)) else None
       case RequireRun(h) => if Open(s) && ch.loads then Some(AfterRequire(h)) else None
       case TimeoutExpiry(h, _) => if h in s.timers.active then Some(AfterTimeout) else None
       case Resume(h, _) => if s.shuttingDown then None else WakeUp(s, h)
       case SleepExpiry(h) => if s.paused || h !in s.timers.active then None else WakeUp(s, h)
       case _ => None)
    case _ => None
  }

  // The coroutine that is entered: the handle's own, the one the script names, or one from the
  // pool that nobody had, in a use of its own.
  predicate Enters(s: State, step: Step, s1: State, co: Co) {
    match step
    case ScriptResume(c) => co == c
    case RunClosure(t, _) =>
      t in s.exec.queue &&
      (match s.exec.queue[t]
       case Resume(h, _) => h in s.pending && co == s.pending[h]
       case SleepExpiry(h) => h in s.pending && co == s.pending[h]
       case _ => NewlyOut(s, s1, co))
    case _ => NewlyOut(s, s1, co)
  }

  predicate NewlyOut(s: State, s1: State, co: Co) {
    && NotOut(s.lua.cos, co) && co !in s.pool.active && co in s1.pool.active
    && co in s1.lua.cos && s1.lua.cos[co].epoch == s.lua.nextEpoch
  }

  predicate OnlyOldFrames(ctl: seq<Ctl>, ctl1: seq<Ctl>) {
    forall k | 0 <= k < |ctl1| && ctl1[k].Frame? :: k < |ctl| && ctl1[k] == ctl[k]
  }

  ghost predicate FramesNext(s: State, step: Step, s1: State) {
    if Started(s, step).Some? then
      exists co :: s1.ctl == s.ctl + [Frame(co, Started(s, step).value)] && Enters(s, step, s1, co)
    else OnlyOldFrames(s.ctl, s1.ctl)
  }

  // --- operations that enter ---

  lemma EnterFrames(s: State, spare: Slot, after: After)
    requires SpareKnown(s, spare)
    ensures var co, s1 := AcquiredCo(s.pool, spare), Enter(s, spare, after);
            s1.ctl == s.ctl + [Frame(co, after)] && NewlyOut(s, s1, co)
    ensures LoadOnly(s, spare).ctl == s.ctl
  {
    LoadOnlyCtl(s, spare);
    hide LoadOnly;
  }

  lemma LoadOnlyCtl(s: State, spare: Slot)
    ensures LoadOnly(s, spare).ctl == s.ctl && LoadOnly(s, spare).shuttingDown == s.shuttingDown
  {
    hide SetSt, LuaAcquire, PoolAcquire, PoolRelease;
  }

  lemma SameFrames(ctl: seq<Ctl>)
    ensures OnlyOldFrames(ctl, ctl)
  {}

  lemma DueIsNoFrame(ctl: seq<Ctl>, hd: Handler, r: Result)
    ensures OnlyOldFrames(ctl, ctl + [Deliver(hd, r)])
  {}

  lemma TaskFrames(s: State, t: nat, ch: Choice)
    requires t in s.exec.queue && s.exec.queue[t].Task? && SpareKnown(s, ch.spare)
    ensures FramesNext(s, RunClosure(t, ch), RunTask(s, t, ch.spare, ch.loads))
  {
    var Task(kind, id) := s.exec.queue[t];
    var s1, s2 := Dequeue(s, t), RunTask(s, t, ch.spare, ch.loads);
    assert SpareKnown(s1, ch.spare);
    EnterFrames(s1, ch.spare, AfterTask(id));
    DueIsNoFrame(s.ctl, TaskPromise(id), Rejected);
    DueIsNoFrame(s.ctl, TaskPromise(id), LoadError);
    hide Enter, LoadOnly, SpareKnown, OnlyOldFrames;
    if Started(s, RunClosure(t, ch)).Some? {
      assert s2.ctl == s.ctl + [Frame(AcquiredCo(s.pool, ch.spare), AfterTask(id))];
    }
  }

  lemma RequireFrames(s: State, t: nat, ch: Choice)
    requires t in s.exec.queue && s.exec.queue[t].RequireRun? && SpareKnown(s, ch.spare)
    ensures var message := if ch.args == [] then 0 else ch.args[0];
            FramesNext(s, RunClosure(t, ch), RunRequire(Dequeue(s, t), s.exec.queue[t].h, ch.spare, ch.loads, message))
  {
    var s1, h := Dequeue(s, t), s.exec.queue[t].h;
    assert SpareKnown(s1, ch.spare);
    EnterFrames(s1, ch.spare, AfterRequire(h));
    SameFrames(s.ctl);
    hide Enter, LoadOnly, SpareKnown, OnlyOldFrames, Schedule;
    if Started(s, RunClosure(t, ch)).Some? {
      var s2 := RunRequire(s1, h, ch.spare, ch.loads, if ch.args == [] then 0 else ch.args[0]);
      assert s2.ctl == s.ctl + [Frame(AcquiredCo(s.pool, ch.spare), AfterRequire(h))];
    }
  }

  lemma LoadFileFrames(s: State, h: Handle, spare: Slot, args: seq<Value>)
    ensures OnlyOldFrames(s.ctl, RunLoadFile(s, h, spare, args).ctl)
  {
    LoadOnlyCtl(s, spare);
    SameFrames(s.ctl);
    hide LoadOnly, Schedule, OnlyOldFrames;
  }

  lemma TimeoutFrames(s: State, t: nat, ch: Choice)
    requires t in s.exec.queue && s.exec.queue[t].TimeoutExpiry? && SpareKnown(s, ch.spare)
    ensures var TimeoutExpiry(h, fn) := s.exec.queue[t];
            FramesNext(s, RunClosure(t, ch), RunTimeoutExpiry(Dequeue(s, t), h, fn, ch.spare))
  {
    var TimeoutExpiry(h, fn) := s.exec.queue[t];
    var s1 := Dequeue(s, t);
    SameFrames(s.ctl);
    if h in s.timers.active {
      TimeoutEnters(s1, h, fn, ch.spare);
      assert Enters(s, RunClosure(t, ch), RunTimeoutExpiry(s1, h, fn, ch.spare), AcquiredCo(s.pool, ch.spare));
    } else {
      TimeoutStops(s1, h, fn, ch.spare);
    }
    hide RunTimeoutExpiry, OnlyOldFrames, SpareKnown, Enters, NewlyOut;
  }

  lemma TimeoutStops(s: State, h: Handle, fn: Ref, spare: Slot)
    requires h !in s.timers.active
    ensures RunTimeoutExpiry(s, h, fn, spare) == s
  {}

  lemma TimeoutEnters(s: State, h: Handle, fn: Ref, spare: Slot)
    requires h in s.timers.active && SpareKnown(s, spare)
    ensures var co, s1 := AcquiredCo(s.pool, spare), RunTimeoutExpiry(s, h, fn, spare);
            s1.ctl == s.ctl + [Frame(co, AfterTimeout)] && NewlyOut(s, s1, co)
  {}

  lemma DoResumeFrames(s: State, h: Handle, args: seq<Value>)
    ensures DoResume(s, h, args).ctl ==
              if WakeUp(s, h).Some? then s.ctl + [Frame(s.pending[h], AfterResume)] else s.ctl
  {
    if h in s.pending && !SuspendedAt(s.lua, s.pending[h]) {
      DismissKeepsStack(Record(s.(pins := s.pins - {h}, pending := s.pending - {h}), NotResumable(h)), s.pending[h]);
    }
    hide Purge, Release, SetSt;
  }

  lemma WakeFrames(s: State, t: nat, ch: Choice)
    requires Enabled(s, RunClosure(t, ch)) && (s.exec.queue[t].Resume? || s.exec.queue[t].SleepExpiry?)
    ensures FramesNext(s, RunClosure(t, ch), ApplyClosure(s, t, ch))
  {
    var s1, w := Dequeue(s, t), s.exec.queue[t].h;
    SameFrames(s.ctl);
    if s.exec.queue[t].Resume? {
      DoResumeFrames(s1, w, s.exec.queue[t].args);
    } else {
      DoResumeFrames(s1.(timers := s1.timers.(active := s1.timers.active - {w})), w, []);
    }
    hide DoResume, OnlyOldFrames, Schedule;
  }

  lemma PassFrames(s: State, a: seq<Co>, b: seq<Co>)
    requires Enumerates(a, s.pool.active.Keys) && Enumerates(b, s.completions.Keys)
    ensures OnlyOldFrames(s.ctl, RunInterruptPass(s, a, b).ctl)
  {
    hide CancelAllLua, ResetAll, PoolReleaseAll, PlacesAfterSwap;
  }

  lemma ClosureFrames(s: State, t: nat, ch: Choice)
    requires Enabled(s, RunClosure(t, ch)) && SpareKnown(s, ch.spare)
    ensures FramesNext(s, RunClosure(t, ch), ApplyClosure(s, t, ch))
  {
    var s1 := Dequeue(s, t);
    SameFrames(s.ctl);
    hide RunTask, DoResume, RunRequire, RunLoadFile, RunInterruptPass, RunSleepExpiry, RunTimeoutExpiry;
    hide OnlyOldFrames, Enters, SpareKnown;
    match s.exec.queue[t] {
      case Task(_, _) => TaskFrames(s, t, ch);
      case Resume(_, _) => WakeFrames(s, t, ch);
      case RequireRun(_) => RequireFrames(s, t, ch);
      case LoadFileRun(h) => LoadFileFrames(s1, h, ch.spare, ch.args);
      case InterruptPass => PassFrames(s1, ch.coOrder, ch.handlerOrder);
      case ClearFlag =>
      case SleepExpiry(_) => WakeFrames(s, t, ch);
      case TimeoutExpiry(_, _) => TimeoutFrames(s, t, ch);
    }
  }

  // --- the other steps ---

  lemma EndFrames(s: State, out: Outcome)
    requires ScriptOnTop(s)
    ensures OnlyOldFrames(s.ctl, EndScript(s, out).ctl)
  {
    EndCtl(s, Top(s), s.ctl[|s.ctl| - 1].after, out);
    ReplacedIsOld(s.ctl, EndScript(s, out).ctl);
    hide EndScript, Replaced, OnlyOldFrames;
  }

  lemma ReplacedIsOld(ctl: seq<Ctl>, ctl1: seq<Ctl>)
    requires ctl != [] && Replaced(ctl[..|ctl| - 1], ctl1)
    ensures OnlyOldFrames(ctl, ctl1)
  {
    var n := |ctl| - 1;
    assert ctl1[..n] == ctl[..n];
    forall k | 0 <= k < |ctl1| && ctl1[k].Frame? ensures k < |ctl| && ctl1[k] == ctl[k] {
      assert ctl1[..n][k] == ctl[..n][k];
    }
  }

  // The frame goes, and a handler may take its place.
  predicate Replaced(ctl: seq<Ctl>, ctl1: seq<Ctl>) {
    ctl1 == ctl || (|ctl1| == |ctl| + 1 && ctl1[..|ctl|] == ctl && ctl1[|ctl|].Deliver?)
  }

  lemma PopCtl(s: State, out: Outcome)
    requires ScriptOnTop(s)
    ensures PopFrame(s, out).ctl == s.ctl[..|s.ctl| - 1]
  {
    hide SetSt;
  }

  lemma EndCtl(s: State, co: Co, after: After, out: Outcome)
    requires s.ctl != [] && s.ctl[|s.ctl| - 1] == Frame(co, after)
    ensures Replaced(s.ctl[..|s.ctl| - 1], EndScript(s, out).ctl)
  {
    PopCtl(s, out);
    EndIs(s, out);
    hide EndScript, TaskReturned, ResumeReturned, CallReturned, RequireReturned, PopFrame;
    var s0 := PopFrame(s, out);
    match after {
      case AfterTask(id) => ReturnCtl(s0, co, id, 0, out);
      case AfterCall(id) => ReturnCtl(s0, co, id, 0, out);
      case AfterRequire(caller) => ReturnCtl(s0, co, 0, caller, out);
      case _ => ReturnCtl(s0, co, 0, 0, out);
    }
  }

  lemma RecycleCtl(s: State, co: Co, out: Outcome)
    requires !out.Yielded?
    ensures Replaced(s.ctl, Recycle(s, co, out).ctl)
  {
    var s1 := Purge(s, co);
    DismissKeepsStack(s, co);
    DismissKeepsStack(s1.(completions := s1.completions - {co}), co);
    hide Release, HandlesOf;
  }

  lemma ReturnCtl(s: State, co: Co, id: HandlerId, caller: Handle, out: Outcome)
    ensures Replaced(s.ctl, TaskReturned(s, co, id, out).ctl) && Replaced(s.ctl, ResumeReturned(s, co, out).ctl)
    ensures Replaced(s.ctl, CallReturned(s, co, id, out).ctl)
    ensures Replaced(s.ctl, RequireReturned(s, co, caller, out).ctl)
  {
    if !out.Yielded? {
      DismissKeepsStack(s, co);
      RecycleCtl(s, co, out);
      RecycleCtl(PutHandler(s, co, TaskPromise(id)), co, out);
      DismissKeepsStack(PushResume(s, caller, RequireArgs(ResultOf(out))), co);
    }
    hide Recycle, Release, Purge, Schedule;
  }

  lemma HostCallFrames(s: State, spare: Slot)
    requires SpareKnown(s, spare)
    ensures FramesNext(s, HostCalls(spare), HostCall(s, spare))
  {
    var s1, id := NewHandlerId(s), s.hist.nextId;
    assert SpareKnown(s1, spare);
    EnterFrames(s1, spare, AfterCall(id));
    hide Enter, SpareKnown;
    assert HostCall(s, spare).ctl == s.ctl + [Frame(AcquiredCo(s.pool, spare), AfterCall(id))];
  }

  lemma QuietFrames(s: State, step: Step)
    requires Enabled(s, step) && s.ctl != [] && !step.ScriptEnd? && !step.HostCalls? && !step.ScriptResume?
    ensures OnlyOldFrames(s.ctl, Apply(s, step).ctl)
  {
    if step.RunHandler? {
      DeliverPopsStack(s);
      hide DeliverTop;
    } else {
      QuietCtl(s, step);
      SameFrames(s.ctl);
      hide Apply, OnlyOldFrames;
    }
  }

  lemma CancelCtl(s: State, co: Co)
    ensures CancelCall(s, co).ctl == s.ctl
  {
    var s1 := if co in s.completions then
                s.(completions := s.completions - {co},
                   hist := s.hist.(cancelled := s.hist.cancelled + {s.completions[co].id},
                                   place := s.hist.place[s.completions[co].id := Cancelled]))
              else s;
    DismissKeepsStack(s1, co);
    hide Purge, Release;
  }

  lemma DownCtl(s: State, order: seq<Co>)
    requires Enumerates(order, s.completions.Keys)
    ensures Shutdown(s, order).ctl == s.ctl
  {
    hide CancelAllLua, PoolShutdownLua, ShutdownSettlements, PlacesAfterShutdown;
  }

  lemma ParkCtl(s: State, co: Co, sleep: bool)
    ensures Park(s, co, sleep).ctl == s.ctl
  {
    hide Schedule;
  }

  lemma ScriptCtl(s: State, step: Step)
    requires Enabled(s, step) && FromScript(step) && !step.ScriptResume?
    ensures Apply(s, step).ctl == s.ctl
  {
    hide ApplyClosure, EndScript, HostCall, CancelCall, Shutdown, SetSt, Schedule, CancelTimerLua, DeliverTop;
    hide PushTask, Interrupt, PushResume, PushGated, Park;
  }

  lemma QuietCtl(s: State, step: Step)
    requires Enabled(s, step) && !step.RunClosure? && !step.ScriptEnd? && !step.HostCalls? && !step.ScriptResume?
    requires !step.RunHandler?
    ensures Apply(s, step).ctl == s.ctl
  {
    if step.HostCancels? {
      CancelCtl(s, step.co);
      hide CancelCall;
    } else if step.HostShutsDown? {
      DownCtl(s, step.order);
      hide Shutdown;
    } else if step.ScriptPark? {
      ParkCtl(s, Top(s), step.sleep);
      hide Park;
    } else if Posted(step) {
      PostedKeepsStack(s, step);
      hide Apply;
    } else {
      ScriptCtl(s, step);
      hide Apply;
    }
  }

  /**
   A step enters the script that it should, on the coroutine that it should, and no other:
   otherwise the frames after it are frames from before it.
   */
  lemma StartStep(s: State, step: Step)
    requires Inv(s) && Enabled(s, step)
    ensures FramesNext(s, step, Apply(s, step))
  {
    hide Core, PlaceInv, SpareKnown, OnlyOldFrames, Enters;
    if step.RunClosure? {
      SpareIsKnown(s, step.choice.spare);
      ClosureFrames(s, step.t, step.choice);
      hide ApplyClosure, FramesNext;
    } else if step.HostCalls? {
      SpareIsKnown(s, step.spare);
      HostCallFrames(s, step.spare);
      hide HostCall, FramesNext;
    } else if step.ScriptResume? {
      ResumeFrames(s, step.co);
      hide PushFrame, FramesNext;
    } else if step.ScriptEnd? {
      EndFrames(s, step.out);
      hide EndScript;
    } else if s.ctl == [] {
      QuietCtl(s, step);
      SameFrames(s.ctl);
      hide Apply;
    } else {
      QuietFrames(s, step);
      hide Apply;
    }
  }

  lemma ResumeFrames(s: State, co: Co)
    ensures FramesNext(s, ScriptResume(co), PushFrame(s, co, ByScript))
  {
    var s1 := PushFrame(s, co, ByScript);
    assert s1.ctl == s.ctl + [Frame(co, ByScript)] by { hide SetSt; }
    assert Enters(s, ScriptResume(co), s1, co);
    hide PushFrame;
  }

  // --- what a park obtains, and which coroutine the pool gives ---

  /** A park issues the next handle, for the coroutine on top in its present use. */
  lemma ParkObtains(s: State, sleep: bool)
    requires Inv(s) && ScriptOnTop(s)
    ensures var s1, h, co := Apply(s, ScriptPark(sleep)), s.timers.next, s.ctl[|s.ctl| - 1].co;
            && s1.timers.next == h + 1 && h !in s.hist.issued && co in s.lua.cos
            && s1.hist.issued == s.hist.issued[h := Ticket(co, s.lua.cos[co].epoch, sleep)]
            && s1.pending == s.pending[h := co]
  {
    TopIsKnown(s);
    NextIsNotIssued(s);
    ParkTickets(s, Top(s), sleep);
    hide Core, PlaceInv, Park, TopKnown;
    assert Top(s) in s.lua.cos by { TopExists(s); }
  }

  lemma TopExists(s: State)
    requires TopKnown(s)
    ensures Top(s) in s.lua.cos
  {}

  lemma ParkTickets(s: State, co: Co, sleep: bool)
    requires co in s.lua.cos
    ensures var s1, h := Park(s, co, sleep), s.timers.next;
            && s1.timers.next == h + 1 && s1.pending == s.pending[h := co]
            && s1.hist.issued == s.hist.issued[h := Ticket(co, s.lua.cos[co].epoch, sleep)]
  {
    hide Schedule;
  }

  /** The coroutine given back last is the next one to be given out. */
  lemma LastBackIsNextOut(pool: Pool, co: Co, spare: Slot)
    requires co in pool.active
    ensures var p := PoolRelease(pool, co);
            && AcquiredCo(p, spare) == co
            && PoolAcquire(p, spare).active == pool.active && PoolAcquire(p, spare).idle == pool.idle
  {
    var p := PoolRelease(pool, co);
    assert p.idle[..|p.idle| - 1] == pool.idle;
    assert (pool.active - {co})[co := pool.active[co]] == pool.active;
  }
}
