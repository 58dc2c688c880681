/** Each step of the runtime keeps the invariant. */
module SchedulerSafety {
  import opened SchedulerState
  import opened Wrappers
  import opened SchedulerSteps
  import opened SchedulerInvariant
  import opened SchedulerKeeps
  import opened SchedulerPlaces

  lemma InitialInv()
    ensures Inv(INITIAL)
  {}

  // --- what the invariants say about a state ---

  lemma TopFacts(s: State)
    requires Core(s) && ScriptOnTop(s)
    ensures !s.closed && Top(s) in s.lua.cos && s.lua.cos[Top(s)].st == Running(|s.ctl| - 1)
    ensures var after := s.ctl[|s.ctl| - 1].after;
            && (FirstRun(after) ==> s.lua.cos[Top(s)].kind.Pooled? && Top(s) !in s.completions)
            && (after.ByScript? ==> s.lua.cos[Top(s)].kind.Script?)
            && (after.AfterRequire? ==> AsyncHandle(s, after.caller))
    ensures s.lua.cos[Top(s)].kind.Pooled? ==> Top(s) in s.pool.active
  {
    Split(s);
    hide Core, Machine, Handles, Timing, IdleInv, HomeInv, PendInv, ResumeInv, ArmedInv, TimerInv;
  }

  lemma ScriptCoFacts(s: State, co: Co)
    requires Core(s) && IsScriptCo(s, co)
    ensures co !in s.completions && co !in s.pool.active
  {
    Split(s);
    hide Core, Machine, Handles, Timing, IdleInv, HomeInv, CtlInv, PendInv, ResumeInv, ArmedInv, TimerInv;
  }

  lemma NextFacts(s: State)
    requires Core(s)
    ensures 1 <= s.timers.next && s.timers.next !in s.timers.active && s.timers.next !in s.timers.armed
    ensures s.exec.nextTicket !in s.exec.queue
  {
    Split(s);
    hide Core, Machine, Handles, Timing, IdleInv, ActiveInv, HomeInv, CtlInv, KeyInv, ResumeInv, CallerInv;
  }

  lemma OpenFacts(s: State)
    requires Core(s)
    ensures !s.shuttingDown ==> !s.closed
    ensures s.pending != map[] || s.timers.active != map[] || s.completions != map[] ==> !s.closed
  {
    Split(s);
    hide Core, Machine, Handles, Timing, IdleInv, ActiveInv, HomeInv, CtlInv, KeyInv, PendInv, ResumeInv;
    hide CallerInv, ArmedInv, TimerInv;
  }

  // --- scripts ---

  lemma ParkKeeps(s: State, sleep: bool)
    requires Inv(s) && ScriptOnTop(s)
    ensures Inv(Park(s, Top(s), sleep))
  {
    hide Core, Placed;
    TopFacts(s);
    NextFacts(s);
    PreYieldKeeps(s, Top(s), sleep);
    if sleep { ArmSleepKeeps(PreYield(s, Top(s), sleep), s.timers.next); }
    QueueStays(TablesOf(s), TablesOf(Park(s, Top(s), sleep)), s.hist.place, s.hist.nextId);
  }

  lemma TimeoutKeeps(s: State, fn: Ref)
    requires Inv(s) && ScriptOnTop(s) && fn !in s.lua.registry
    ensures Inv(TimeoutSet(s, fn))
  {
    hide Core, Placed;
    TopFacts(s);
    NextFacts(s);
    SetTimeoutKeeps(s, fn);
    QueueStays(TablesOf(s), TablesOf(TimeoutSet(s, fn)), s.hist.place, s.hist.nextId);
  }

  lemma ResumeByScriptKeeps(s: State, co: Co)
    requires Inv(s) && ScriptOnTop(s) && IsScriptCo(s, co) && !s.lua.cos[co].st.Running?
    ensures Inv(PushFrame(s, co, ByScript))
  {
    hide Core, Placed;
    TopFacts(s);
    ByScriptKeeps(s, co);
    PushStays(TablesOf(s), Frame(co, ByScript), s.hist.place, s.hist.nextId);
  }

  // --- the end of a script ---

  lemma YieldIs(s: State, loc: Location)
    requires ScriptOnTop(s)
    ensures var Frame(co, after) := s.ctl[|s.ctl| - 1];
            var s0 := PopFrame(s, Yielded(loc));
            EndScript(s, Yielded(loc)) ==
              match after
              case AfterTask(id) => PutHandler(s0, co, TaskPromise(id))
              case AfterCall(id) => PutHandler(s0, co, HostCallback(id))
              case AfterRequire(caller) => PutHandler(NewHandlerId(s0), co, RequireDone(s.hist.nextId, caller))
              case _ => s0
  {}

  lemma YieldedAwaitedKeeps(s: State, hd: Handler, loc: Location)
    requires Inv(s) && ScriptOnTop(s) && !hd.RequireDone?
    requires FirstRun(s.ctl[|s.ctl| - 1].after) && HandlerIn(s.ctl[|s.ctl| - 1]) == Some(hd.id)
    ensures Inv(PutHandler(PopFrame(s, Yielded(loc)), Top(s), hd))
  {
    hide Core, Placed;
    TopFacts(s);
    PopKeeps(s, Yielded(loc));
    PutKeeps(PopFrame(s, Yielded(loc)), Top(s), hd);
    StackToTable(TablesOf(s), Top(s), hd, s.hist.place, s.hist.nextId);
  }

  lemma YieldedRequireKeeps(s: State, caller: Handle, loc: Location)
    requires Inv(s) && ScriptOnTop(s) && s.ctl[|s.ctl| - 1].after == AfterRequire(caller)
    ensures Inv(PutHandler(NewHandlerId(PopFrame(s, Yielded(loc))), Top(s), RequireDone(s.hist.nextId, caller)))
  {
    hide Core, Placed;
    var s0 := PopFrame(s, Yielded(loc));
    var hd := RequireDone(s.hist.nextId, caller);
    TopFacts(s);
    PopKeeps(s, Yielded(loc));
    FlagsKeeps(s0, NewHandlerId(s0));
    PutKeeps(NewHandlerId(s0), Top(s), hd);
    PopStays(TablesOf(s), s.hist.place, s.hist.nextId);
    PutNew(TablesOf(s0), Top(s), hd, s.hist.place, s.hist.nextId);
  }

  lemma YieldedKeeps(s: State, loc: Location)
    requires Inv(s) && ScriptOnTop(s)
    ensures Inv(EndScript(s, Yielded(loc)))
  {
    YieldIs(s, loc);
    hide Core, Placed, EndScript, PopFrame, PutHandler;
    match s.ctl[|s.ctl| - 1].after {
      case AfterTask(id) => YieldedAwaitedKeeps(s, TaskPromise(id), loc);
      case AfterCall(id) => YieldedAwaitedKeeps(s, HostCallback(id), loc);
      case AfterRequire(caller) => YieldedRequireKeeps(s, caller, loc);
      case _ => YieldedPlainKeeps(s, loc);
    }
  }

  lemma YieldedPlainKeeps(s: State, loc: Location)
    requires Inv(s) && ScriptOnTop(s) && HandlerIn(s.ctl[|s.ctl| - 1]) == None
    ensures Inv(PopFrame(s, Yielded(loc)))
  {
    hide Core, Placed;
    PopKeeps(s, Yielded(loc));
    PopStays(TablesOf(s), s.hist.place, s.hist.nextId);
  }

  // A pool coroutine ends: purged, popped, its handler removed, released.
  function Gone(s: State, co: Co): State
    requires ScriptOnTop(s)
  {
    Ended(Purge(s, co), co)
  }

  function Noted(s: State, out: Outcome): State {
    if out.Raised? then Record(s, UnhandledError(out.message)) else s
  }

  predicate PoolTop(s: State, co: Co, after: After) {
    && s.ctl != [] && s.ctl[|s.ctl| - 1] == Frame(co, after)
    && co in s.lua.cos && s.lua.cos[co].kind.Pooled? && co in s.pool.active
  }

  lemma GoneKeeps(s: State, co: Co)
    requires Core(s) && ScriptOnTop(s) && Top(s) == co
    requires co in s.lua.cos && s.lua.cos[co].kind.Pooled?
    ensures Core(Gone(s, co))
  {
    hide Core;
    TopFacts(s);
    PurgeKeeps(s, co);
    EndKeeps(Purge(s, co), co);
  }

  lemma EndTaskIs(s: State, co: Co, id: HandlerId, out: Outcome)
    requires PoolTop(s, co, AfterTask(id)) && co !in s.completions && !out.Yielded?
    ensures EndScript(s, out) == PushDeliver(Gone(s, co), TaskPromise(id), ResultOf(out))
  {
    assert SetSt(SetSt(s.lua, co, Dead), co, Fresh) == SetSt(s.lua, co, Fresh);
    assert s.completions[co := TaskPromise(id)] - {co} == s.completions - {co};
    assert s.hist.place[id := AtCo(co)][id := OnStack(|s.ctl| - 1)] == s.hist.place[id := OnStack(|s.ctl| - 1)];
  }

  lemma EndCallIs(s: State, co: Co, id: HandlerId, out: Outcome)
    requires PoolTop(s, co, AfterCall(id)) && co !in s.completions && !out.Yielded?
    ensures EndScript(s, out) == PushDeliver(Gone(s, co), HostCallback(id), ResultOf(out))
  {
    assert SetSt(SetSt(s.lua, co, Dead), co, Fresh) == SetSt(s.lua, co, Fresh);
    assert s.completions - {co} == s.completions;
  }

  lemma EndOtherIs(s: State, co: Co, after: After, out: Outcome)
    requires PoolTop(s, co, after) && (after.AfterTimeout? || after.AfterResume?) && !out.Yielded?
    ensures EndScript(s, out) ==
              if co in s.completions then PushDeliver(Gone(s, co), s.completions[co], ResultOf(out))
              else Noted(Gone(s, co), out)
  {
    assert SetSt(SetSt(s.lua, co, Dead), co, Fresh) == SetSt(s.lua, co, Fresh);
    if co in s.completions { RecycleDelivers(s, co, out); } else { RecycleNotes(s, co, out); }
    hide Recycle, PopFrame, Gone;
  }

  lemma RecycleDelivers(s: State, co: Co, out: Outcome)
    requires ScriptOnTop(s) && Top(s) == co && co in s.lua.cos && co in s.pool.active && !out.Yielded?
    requires SetSt(SetSt(s.lua, co, Dead), co, Fresh) == SetSt(s.lua, co, Fresh) && co in s.completions
    ensures Recycle(PopFrame(s, out), co, out) == PushDeliver(Gone(s, co), s.completions[co], ResultOf(out))
  {}

  lemma RecycleNotes(s: State, co: Co, out: Outcome)
    requires ScriptOnTop(s) && Top(s) == co && co in s.lua.cos && co in s.pool.active && !out.Yielded?
    requires SetSt(SetSt(s.lua, co, Dead), co, Fresh) == SetSt(s.lua, co, Fresh) && co !in s.completions
    ensures Recycle(PopFrame(s, out), co, out) == Noted(Gone(s, co), out)
  {
    assert s.completions - {co} == s.completions;
  }

  lemma EndRequireIs(s: State, co: Co, caller: Handle, out: Outcome)
    requires PoolTop(s, co, AfterRequire(caller)) && co !in s.completions && !out.Yielded?
    ensures EndScript(s, out) == PushResume(Ended(s, co), caller, RequireArgs(ResultOf(out)))
  {
    assert SetSt(SetSt(s.lua, co, Dead), co, Fresh) == SetSt(s.lua, co, Fresh);
    assert s.completions - {co} == s.completions;
  }

  lemma EndTaskKeeps(s: State, co: Co, id: HandlerId, out: Outcome)
    requires Inv(s) && PoolTop(s, co, AfterTask(id)) && !out.Yielded?
    ensures Inv(EndScript(s, out))
  {
    hide Core, Placed, EndScript, Gone, Record;
    TopFacts(s);
    GoneKeeps(s, co);
    EndTaskIs(s, co, id, out);
    PushKeeps(Gone(s, co), TaskPromise(id), ResultOf(out));
    GoneTables(s, co);
    StackToDeliver(TablesOf(s), TaskPromise(id), ResultOf(out), s.hist.place, s.hist.nextId);
  }

  lemma EndCallKeeps(s: State, co: Co, id: HandlerId, out: Outcome)
    requires Inv(s) && PoolTop(s, co, AfterCall(id)) && !out.Yielded?
    ensures Inv(EndScript(s, out))
  {
    hide Core, Placed, EndScript, Gone, Record;
    TopFacts(s);
    GoneKeeps(s, co);
    EndCallIs(s, co, id, out);
    PushKeeps(Gone(s, co), HostCallback(id), ResultOf(out));
    GoneTables(s, co);
    StackToDeliver(TablesOf(s), HostCallback(id), ResultOf(out), s.hist.place, s.hist.nextId);
  }

  lemma GoneTables(s: State, co: Co)
    requires ScriptOnTop(s)
    ensures var g := Gone(s, co);
            && TablesOf(g) == TablesOf(s).(ctl := s.ctl[..|s.ctl| - 1], completions := s.completions - {co})
            && g.hist == s.hist
            && (co !in s.completions ==> g.completions == s.completions)
  {}

  lemma EndOtherKeeps(s: State, co: Co, after: After, out: Outcome)
    requires Inv(s) && PoolTop(s, co, after) && (after.AfterTimeout? || after.AfterResume?) && !out.Yielded?
    ensures Inv(EndScript(s, out))
  {
    hide Core, Placed, EndScript, Gone;
    TopFacts(s);
    GoneKeeps(s, co);
    EndOtherIs(s, co, after, out);
    GoneTables(s, co);
    PopStays(TablesOf(s), s.hist.place, s.hist.nextId);
    if co in s.completions {
      HandlerCaller(s, co);
      PushKeeps(Gone(s, co), s.completions[co], ResultOf(out));
      var v := TablesOf(s).(ctl := s.ctl[..|s.ctl| - 1]);
      TableToDeliver(v, co, ResultOf(out), s.hist.place, s.hist.nextId);
    } else {
      FlagsKeeps(Gone(s, co), Noted(Gone(s, co), out));
    }
  }

  lemma HandlerCaller(s: State, co: Co)
    requires Core(s) && ScriptOnTop(s) && co in s.completions
    ensures s.completions[co].RequireDone? ==> AsyncHandle(Gone(s, co), s.completions[co].caller)
  {}

  lemma EndRequireKeeps(s: State, co: Co, caller: Handle, out: Outcome)
    requires Inv(s) && PoolTop(s, co, AfterRequire(caller)) && !out.Yielded?
    ensures Inv(EndScript(s, out))
  {
    hide Core, Placed, EndScript;
    TopFacts(s);
    NextFacts(s);
    EndKeeps(s, co);
    var e := Ended(s, co);
    EndRequireIs(s, co, caller, out);
    assert s.completions - {co} == s.completions;
    PopStays(TablesOf(s), s.hist.place, s.hist.nextId);
    if !s.shuttingDown {
      ScheduleKeeps(e, Resume(caller, RequireArgs(ResultOf(out))));
      QueueStays(TablesOf(e), TablesOf(EndScript(s, out)), s.hist.place, s.hist.nextId);
    }
  }

  // A script coroutine ends: nothing is released.
  lemma EndScriptCoKeeps(s: State, co: Co, after: After, out: Outcome)
    requires Inv(s) && s.ctl != [] && s.ctl[|s.ctl| - 1] == Frame(co, after) && IsScriptCo(s, co)
    requires !out.Yielded?
    ensures Inv(EndScript(s, out))
  {
    hide Core, Placed, EndScript;
    TopFacts(s);
    ScriptCoFacts(s, co);
    PopKeeps(s, out);
    PopStays(TablesOf(s), s.hist.place, s.hist.nextId);
    var s0 := PopFrame(s, out);
    PurgeKeeps(s0, co);
    FlagsKeeps(Purge(s0, co), Noted(Purge(s0, co), out));
    ScriptEndIs(s, out);
  }

  lemma ScriptEndIs(s: State, out: Outcome)
    requires ScriptOnTop(s) && IsScriptCo(s, Top(s)) && !out.Yielded? && !FirstRun(s.ctl[|s.ctl| - 1].after)
    requires Top(s) !in s.pool.active && Top(s) !in s.completions
    ensures var s0 := PopFrame(s, out);
            EndScript(s, out) == if s.ctl[|s.ctl| - 1].after.ByScript? then s0 else Noted(Purge(s0, Top(s)), out)
  {
    hide HandlesOf, SetSt;
  }

  lemma EndKeepsInv(s: State, out: Outcome)
    requires Inv(s) && ScriptOnTop(s)
    ensures Inv(EndScript(s, out))
  {
    hide Core, PlaceInv, EndScript;
    TopFacts(s);
    var Frame(co, after) := s.ctl[|s.ctl| - 1];
    if out.Yielded? { YieldedKeeps(s, out.loc); return; }
    if IsScriptCo(s, co) { EndScriptCoKeeps(s, co, after, out); return; }
    match after {
      case AfterTask(id) => EndTaskKeeps(s, co, id, out);
      case AfterCall(id) => EndCallKeeps(s, co, id, out);
      case AfterRequire(caller) => EndRequireKeeps(s, co, caller, out);
      case AfterTimeout => EndOtherKeeps(s, co, after, out);
      case AfterResume => EndOtherKeeps(s, co, after, out);
      case ByScript =>
    }
  }

  // --- closures ---

  lemma EnterNoHandlerKeeps(s: State, spare: Slot, after: After)
    requires Inv(s) && CanEnter(s, spare, after) && (after.AfterTimeout? || after.AfterRequire?)
    ensures Inv(Enter(s, spare, after))
  {
    hide Core, Placed, Acquire;
    EnterKeeps(s, spare, after);
    PushStays(TablesOf(s), Frame(AcquiredCo(s.pool, spare), after), s.hist.place, s.hist.nextId);
    assert Acquire(s, spare).ctl == s.ctl && TablesOf(Acquire(s, spare)) == TablesOf(s)
      && Acquire(s, spare).hist == s.hist by { AcquireTables(s, spare); }
  }

  lemma AcquireTables(s: State, spare: Slot)
    ensures Acquire(s, spare).ctl == s.ctl && TablesOf(Acquire(s, spare)) == TablesOf(s)
    ensures Acquire(s, spare).hist == s.hist
    ensures TablesOf(LoadOnly(s, spare)) == TablesOf(s) && LoadOnly(s, spare).hist == s.hist
    ensures LoadOnly(s, spare).exec == s.exec && LoadOnly(s, spare).shuttingDown == s.shuttingDown
  {}

  lemma DequeueKeepsInv(s: State, t: nat)
    requires Inv(s) && Inert(s, t) && !s.exec.queue[t].Task?
    ensures Inv(Dequeue(s, t))
  {
    hide Core, Placed;
    DequeueKeeps(s, t);
    QueueStays(TablesOf(s), TablesOf(Dequeue(s, t)), s.hist.place, s.hist.nextId);
  }

  lemma ScheduleKeepsInv(s: State, c: Closure)
    requires Inv(s) && CanSchedule(s, c) && !c.Task?
    ensures Inv(s.(exec := Schedule(s.exec, c)))
  {
    hide Core, Placed;
    NextFacts(s);
    ScheduleKeeps(s, c);
    QueueStays(TablesOf(s), TablesOf(s.(exec := Schedule(s.exec, c))), s.hist.place, s.hist.nextId);
  }

  lemma RunTaskKeeps(s: State, t: nat, spare: Slot, loads: bool)
    requires Inv(s) && s.ctl == [] && t in s.exec.queue && s.exec.queue[t].Task? && SpareSlot(s, spare)
    ensures Inv(RunTask(s, t, spare, loads))
  {
    hide Core, Placed, LoadOnly, Acquire;
    var Task(kind, id) := s.exec.queue[t];
    var s1 := Dequeue(s, t);
    var v, place, next := TablesOf(s), s.hist.place, s.hist.nextId;
    OpenFacts(s);
    DequeueKeeps(s, t);
    AcquireTables(s1, spare);
    if s.shuttingDown || s.interrupted {
      PushKeeps(s1, TaskPromise(id), Rejected);
      QueueToStack(v, t, Deliver(TaskPromise(id), Rejected), place, next);
    } else if kind.LoadScript? && !loads {
      LoadOnlyKeeps(s1, spare);
      PushKeeps(LoadOnly(s1, spare), TaskPromise(id), LoadError);
      QueueToStack(v, t, Deliver(TaskPromise(id), LoadError), place, next);
    } else {
      EnterKeeps(s1, spare, AfterTask(id));
      FlagsKeeps(Enter(s1, spare, AfterTask(id)), RunTask(s, t, spare, loads));
      QueueToStack(v, t, Frame(AcquiredCo(s1.pool, spare), AfterTask(id)), place, next);
    }
  }

  lemma RunRequireKeeps(s: State, caller: Handle, spare: Slot, loads: bool, message: Value)
    requires Inv(s) && SpareSlot(s, spare) && AsyncHandle(s, caller)
    ensures Inv(RunRequire(s, caller, spare, loads, message))
  {
    hide Core, Placed, LoadOnly, Enter;
    OpenFacts(s);
    if s.shuttingDown || s.interrupted {
    } else if !loads {
      CompileKeeps(s, caller, spare, [0, message]);
    } else {
      EnterNoHandlerKeeps(s, spare, AfterRequire(caller));
    }
  }

  lemma CompileKeeps(s: State, caller: Handle, spare: Slot, args: seq<Value>)
    requires Inv(s) && SpareSlot(s, spare) && AsyncHandle(s, caller) && !s.closed && !s.shuttingDown
    ensures Inv(PushResume(LoadOnly(s, spare), caller, args))
  {
    hide Core, Placed, LoadOnly;
    LoadOnlyKeeps(s, spare);
    AcquireTables(s, spare);
    ScheduleKeepsInv(LoadOnly(s, spare), Resume(caller, args));
  }

  lemma RunLoadFileKeeps(s: State, caller: Handle, spare: Slot, args: seq<Value>)
    requires Inv(s) && SpareSlot(s, spare) && AsyncHandle(s, caller)
    ensures Inv(RunLoadFile(s, caller, spare, args))
  {
    hide Core, Placed, LoadOnly;
    OpenFacts(s);
    if !s.shuttingDown && !s.interrupted { CompileKeeps(s, caller, spare, args); }
  }

  /**
   With nothing on the stack, a coroutine that is checked out is suspended; so what
   `CheckResumable` releases is never checked out and nobody awaits it.
   */
  lemma FailedIsNotOut(s: State, co: Co)
    requires Core(s) && s.ctl == [] && !SuspendedAt(s.lua, co)
    ensures co !in s.pool.active && co !in s.completions
  {
    Split(s);
    hide Core, Machine, Handles, Timing, IdleInv, HomeInv, ResumeInv, CallerInv, ArmedInv, TimerInv;
  }

  lemma DoResumeKeeps(s: State, h: Handle, args: seq<Value>)
    requires Inv(s) && s.ctl == [] && h !in s.timers.active
    ensures Inv(DoResume(s, h, args))
  {
    hide Core, Placed;
    if h in s.pending {
      var co := s.pending[h];
      OpenFacts(s);
      if SuspendedAt(s.lua, co) {
        ResumedKeeps(s, h, args);
        PushStays(TablesOf(s), Frame(co, AfterResume), s.hist.place, s.hist.nextId);
      } else {
        FailedIsNotOut(s, co);
        ForgetKeeps(s, h);
        var s1 := s.(pins := s.pins - {h}, pending := s.pending - {h});
        FlagsKeeps(s1, Record(s1, NotResumable(h)));
        PurgeKeeps(Record(s1, NotResumable(h)), co);
      }
    }
  }

  lemma SleepExpiryKeeps(s: State, t: nat, h: Handle)
    requires Inv(s) && s.ctl == [] && t in s.exec.queue && s.exec.queue[t] == SleepExpiry(h)
    ensures Inv(RunSleepExpiry(Dequeue(s, t), h))
  {
    hide Core, Placed, DoResume;
    if h !in s.timers.active {
      DequeueKeepsInv(s, t);
    } else {
      var e := Expired(s, t, h);
      ExpireKeeps(s, t, h);
      QueueStays(TablesOf(s), TablesOf(e), s.hist.place, s.hist.nextId);
      assert RunSleepExpiry(Dequeue(s, t), h) == if s.paused then ArmSleep(e, h) else DoResume(e, h, []);
      if s.paused {
        OpenFacts(s);
        SleepFacts(s, t, h);
        NextFacts(e);
        ArmSleepKeeps(e, h);
        QueueStays(TablesOf(e), TablesOf(ArmSleep(e, h)), s.hist.place, s.hist.nextId);
      } else {
        DoResumeKeeps(e, h, []);
      }
    }
  }

  lemma SleepFacts(s: State, t: nat, h: Handle)
    requires Core(s) && t in s.exec.queue && s.exec.queue[t] == SleepExpiry(h) && h in s.timers.active && !s.closed
    ensures CanArm(Expired(s, t, h), h) && s.timers.active[h] == Sleep
  {
    Split(s);
    hide Core, Machine, Handles, Timing, IdleInv, ActiveInv, HomeInv, CtlInv, KeyInv, ResumeInv, CallerInv, ClosedInv;
    assert s.timers.armed[h] == t;
  }

  lemma TimeoutExpiryKeeps(s: State, t: nat, h: Handle, fn: Ref, spare: Slot)
    requires Inv(s) && t in s.exec.queue && s.exec.queue[t] == TimeoutExpiry(h, fn) && SpareSlot(s, spare)
    ensures Inv(RunTimeoutExpiry(Dequeue(s, t), h, fn, spare))
  {
    hide Core, Placed, Enter, Fired;
    if h !in s.timers.active {
      DequeueKeepsInv(s, t);
    } else {
      OpenFacts(s);
      FireKeeps(s, t, h, fn);
      FiredIs(s, t, h, fn, spare);
      QueueStays(TablesOf(s), TablesOf(Fired(s, t, h, fn)), s.hist.place, s.hist.nextId);
      EnterNoHandlerKeeps(Fired(s, t, h, fn), spare, AfterTimeout);
    }
  }

  // Acquiring before or after the function's slot is given back makes no difference.
  lemma FiredIs(s: State, t: nat, h: Handle, fn: Ref, spare: Slot)
    requires Core(s) && t in s.exec.queue && s.exec.queue[t] == TimeoutExpiry(h, fn) && h in s.timers.active
    requires SpareSlot(s, spare)
    ensures RunTimeoutExpiry(Dequeue(s, t), h, fn, spare) == Enter(Fired(s, t, h, fn), spare, AfterTimeout)
    ensures SpareSlot(Fired(s, t, h, fn), spare) && !Fired(s, t, h, fn).closed == !s.closed
    ensures TablesOf(Fired(s, t, h, fn)) == TablesOf(s).(queue := s.exec.queue - {t})
    ensures Fired(s, t, h, fn).hist == s.hist
  {
    TimeoutSlot(s, t, h, fn);
    hide Core;
    UnrefLater(s, fn, spare);
  }

  lemma TimeoutSlot(s: State, t: nat, h: Handle, fn: Ref)
    requires Core(s) && t in s.exec.queue && s.exec.queue[t] == TimeoutExpiry(h, fn) && h in s.timers.active
    ensures fn in s.lua.registry && s.lua.registry[fn] == TimerFn(h)
  {
    Split(s);
    hide Core, Machine, Handles, Timing, IdleInv, ActiveInv, HomeInv, CtlInv, KeyInv, PendInv, ResumeInv;
    hide CallerInv, ClosedInv;
    assert s.timers.armed[h] == t;
  }

  lemma UnrefLater(s: State, fn: Ref, spare: Slot)
    requires fn in s.lua.registry && SpareSlot(s, spare)
    ensures Unref(LuaAcquire(s.lua, s.pool, spare), fn) == LuaAcquire(Unref(s.lua, fn), s.pool, spare)
  {
    if s.pool.idle == [] {
      assert s.lua.registry[spare.ref := PoolCo(spare.co)] - {fn} ==
        (s.lua.registry - {fn})[spare.ref := PoolCo(spare.co)];
    }
  }

  lemma InterruptPassKeeps(s: State, t: nat, a: seq<Co>, b: seq<Co>)
    requires Inv(s) && t in s.exec.queue && s.exec.queue[t].InterruptPass? && Orders(s, a, b)
    ensures Inv(RunInterruptPass(Dequeue(s, t), a, b))
  {
    hide Core, PlaceInv, RunInterruptPass;
    DequeueKeepsInv(s, t);
    PassKeeps(Dequeue(s, t), a, b);
    PassMoves(Dequeue(s, t), a, b);
  }

  lemma DeliverKeeps(s: State)
    requires Inv(s) && s.ctl != [] && s.ctl[|s.ctl| - 1].Deliver?
    ensures Inv(DeliverTop(s))
  {
    hide Core, Placed;
    var Deliver(hd, r) := s.ctl[|s.ctl| - 1];
    var s0 := s.(ctl := s.ctl[..|s.ctl| - 1]);
    var s1 := Settle(s0, hd.id, r);
    DropKeeps(s);
    FlagsKeeps(s0, s1);
    StackToLog(TablesOf(s), r, s.hist.place, s.hist.nextId);
    if hd.RequireDone? && !s.shuttingDown {
      DeliverCaller(s);
      ScheduleKeepsInv(s1, Resume(hd.caller, RequireArgs(r)));
    }
  }

  lemma DeliverCaller(s: State)
    requires Core(s) && s.ctl != [] && s.ctl[|s.ctl| - 1].Deliver? && s.ctl[|s.ctl| - 1].handler.RequireDone?
    ensures AsyncHandle(s, s.ctl[|s.ctl| - 1].handler.caller)
  {}

  // --- host and other threads ---

  lemma HostCallKeeps(s: State, spare: Slot)
    requires Inv(s) && !s.closed && SpareSlot(s, spare)
    ensures Inv(HostCall(s, spare))
  {
    hide Core, Placed, Acquire;
    var id := s.hist.nextId;
    AcquireTables(NewHandlerId(s), spare);
    EnterKeeps(s, spare, AfterCall(id));
    EnterIgnoresIds(s, spare, AfterCall(id));
    FlagsKeeps(Enter(s, spare, AfterCall(id)), HostCall(s, spare));
    PushNew(TablesOf(s), Frame(AcquiredCo(s.pool, spare), AfterCall(id)), s.hist.place, id);
  }

  lemma EnterIgnoresIds(s: State, spare: Slot, after: After)
    ensures Enter(NewHandlerId(s), spare, after) == NewHandlerId(Enter(s, spare, after))
  {}

  lemma CancelKeepsInv(s: State, co: Co)
    requires Inv(s) && co in s.completions && SuspendedAt(s.lua, co)
    ensures Inv(CancelCall(s, co))
  {
    hide Core, Placed;
    var p := Purge(s, co);
    PurgeKeeps(s, co);
    CancelKeeps(p, co);
    CancelIs(s, co);
    FlagsKeeps(Cancelled1(p, co), CancelCall(s, co));
    TableToCancelled(TablesOf(s), co, s.hist.place, s.hist.nextId);
  }

  lemma CancelIs(s: State, co: Co)
    requires Core(s) && co in s.completions
    ensures var c := CancelCall(s, co);
            && c == Cancelled1(Purge(s, co), co).(hist := c.hist)
            && TablesOf(c) == TablesOf(s).(completions := s.completions - {co},
                                           cancelled := s.hist.cancelled + {s.completions[co].id})
            && c.hist.issued == s.hist.issued && c.hist.resumes == s.hist.resumes
            && c.hist.place == s.hist.place[s.completions[co].id := Cancelled] && c.hist.nextId == s.hist.nextId
  {
    CompletionActive(s, co);
    hide Core;
  }

  lemma CompletionActive(s: State, co: Co)
    requires Core(s) && co in s.completions
    ensures co in s.pool.active
  {
    Split(s);
    hide Core, Machine, Handles, Timing, IdleInv, HomeInv, CtlInv, PendInv, ResumeInv, CallerInv, ArmedInv;
    hide TimerInv, ClosedInv;
  }

  lemma PushTaskKeeps(s: State, kind: TaskKind)
    requires Inv(s)
    ensures Inv(PushTask(s, kind))
  {
    hide Core, Placed;
    var id := s.hist.nextId;
    NextFacts(s);
    if s.shuttingDown || s.interrupted {
      FlagsKeeps(s, PushTask(s, kind));
      SettleNew(TablesOf(s), Rejected, s.hist.place, id);
    } else {
      var s1 := s.(exec := Schedule(s.exec, Task(kind, id)));
      ScheduleKeeps(s, Task(kind, id));
      FlagsKeeps(s1, PushTask(s, kind));
      Submit(TablesOf(s), s.exec.nextTicket, Task(kind, id), s.hist.place, id);
    }
  }

  lemma FlagsKeepInv(s: State, f: State)
    requires Inv(s) && SameCore(s, f) && f.hist == s.hist
    ensures Inv(f)
  {
    hide Core, Placed;
    FlagsKeeps(s, f);
  }
}
