/**
 What becomes of one handle: whether the use of its coroutine in which it was obtained is
 over, and whether a sleep that is still pending has a live timer.
 */
module SchedulerUses {
  import opened SchedulerState
  import opened SchedulerSteps
  import opened SchedulerInvariant
  import opened SchedulerKeeps
  import opened SchedulerSafety
  import opened SchedulerProgress

  // The coroutine that obtained the handle is gone, in another use, or back in the pool.
  predicate Over(s: State, h: Handle)
    requires h in s.hist.issued
  {
    var t := s.hist.issued[h];
    t.co !in s.lua.cos || s.lua.cos[t.co].epoch != t.epoch
    || (s.lua.cos[t.co].kind.Pooled? && s.lua.cos[t.co].st.Fresh?)
  }

  // An issued handle keeps its ticket and does not become pending again; a use that is over
  // stays over, and the use of a handle that stays pending goes on.
  predicate UseGoesOn(s: State, s1: State, h: Handle)
    requires h in s.hist.issued
  {
    && h in s1.hist.issued && s1.hist.issued[h] == s.hist.issued[h]
    && (h in s1.pending ==> h in s.pending)
    && (Over(s, h) ==> Over(s1, h))
    && (h in s1.pending && !Over(s, h) ==> !Over(s1, h))
  }

  // A handle that stays pending keeps its timer, or keeps having none.
  predicate TimerGoesOn(s: State, s1: State, h: Handle) {
    h in s1.pending ==> (h in s1.timers.active <==> h in s.timers.active)
  }

  predicate GoesOn(s: State, s1: State, h: Handle)
    requires h in s.hist.issued
  {
    UseGoesOn(s, s1, h) && TimerGoesOn(s, s1, h)
  }

  lemma Chain(a: State, b: State, c: State, h: Handle)
    requires h in a.hist.issued && GoesOn(a, b, h) && GoesOn(b, c, h)
    ensures GoesOn(a, c, h)
  {}

  // Nothing that matters to a handle changes, but for other entries of the timers.
  predicate Untouched(s: State, s1: State, h: Handle) {
    && s1.lua.cos == s.lua.cos && s1.pending == s.pending && s1.hist.issued == s.hist.issued
    && (h in s1.timers.active <==> h in s.timers.active)
  }

  lemma UntouchedGoesOn(s: State, s1: State, h: Handle)
    requires h in s.hist.issued && Untouched(s, s1, h)
    ensures GoesOn(s, s1, h)
  {}

  // The two states look the same to every handle.
  predicate Alike(s: State, s1: State) {
    && s1.lua.cos == s.lua.cos && s1.pending == s.pending && s1.hist.issued == s.hist.issued
    && s1.timers.active == s.timers.active
  }

  lemma AlikeGoOn(a: State, b: State, s: State, s1: State, h: Handle)
    requires h in a.hist.issued && GoesOn(a, b, h) && Alike(a, s) && Alike(b, s1)
    ensures GoesOn(s, s1, h)
  {}

  // --- what the invariant says of one handle ---

  predicate Known(s: State, h: Handle) {
    && h in s.hist.issued && h < s.timers.next && s.hist.issued[h].epoch < s.lua.nextEpoch
    && (h in s.pending ==> s.pending[h] == s.hist.issued[h].co && s.pending[h] in s.lua.cos)
    && (h in s.timers.active ==> s.timers.active[h] == Sleep && h in s.pending && s.hist.issued[h].sleep)
    && s.pins == s.pending
  }

  lemma IssuedIsKnown(s: State, h: Handle)
    requires Core(s) && h in s.hist.issued
    ensures Known(s, h)
  {
    Split(s);
    assert h in s.pending ==> Owned(s, h);
    hide Core, Machine, Handles, Timing, PoolInv, CtlInv, KeyInv, ClosedInv, ResumeInv, CallerInv, ArmedInv;
  }

  // The coroutine that the pool gives next.
  predicate SpareKnown(s: State, spare: Slot) {
    var co := AcquiredCo(s.pool, spare);
    && co !in s.pool.active
    && if s.pool.idle == [] then co !in s.lua.cos
       else co in s.lua.cos && s.lua.cos[co].kind.Pooled? && s.lua.cos[co].st.Fresh?
  }

  lemma SpareIsKnown(s: State, spare: Slot)
    requires Core(s) && SpareSlot(s, spare)
    ensures SpareKnown(s, spare)
  {
    Split(s);
    hide Core, Machine, Handles, Timing, CtlInv, KeyInv, ClosedInv, PendInv, ResumeInv, CallerInv, ArmedInv, TimerInv;
  }

  predicate TopKnown(s: State) {
    && ScriptOnTop(s) && Top(s) in s.lua.cos && s.lua.cos[Top(s)].st.Running?
    && (s.lua.cos[Top(s)].kind.Pooled? ==> Top(s) in s.pool.active)
    && (s.lua.cos[Top(s)].kind.Script? ==> Top(s) !in s.pool.active && Top(s) !in s.completions)
    && (FirstRun(s.ctl[|s.ctl| - 1].after) ==> s.lua.cos[Top(s)].kind.Pooled? && Top(s) !in s.completions)
    && (s.ctl[|s.ctl| - 1].after.ByScript? ==> s.lua.cos[Top(s)].kind.Script?)
  }

  lemma TopIsKnown(s: State)
    requires Core(s) && ScriptOnTop(s)
    ensures TopKnown(s)
  {
    TopFacts(s);
    if IsScriptCo(s, Top(s)) { ScriptCoFacts(s, Top(s)); }
    hide Core;
  }

  // --- coroutines taken and given back ---

  lemma EnterGoesOn(s: State, spare: Slot, after: After, h: Handle)
    requires Known(s, h) && SpareKnown(s, spare)
    ensures GoesOn(s, Enter(s, spare, after), h)
  {}

  lemma AcquireGoesOn(s: State, spare: Slot, h: Handle)
    requires Known(s, h) && SpareKnown(s, spare)
    ensures GoesOn(s, Acquire(s, spare), h)
  {}

  lemma LoadOnlyIsAlike(s: State, spare: Slot)
    requires SpareKnown(s, spare)
    ensures Alike(Acquire(s, spare), LoadOnly(s, spare))
  {}

  lemma LoadOnlyGoesOn(s: State, spare: Slot, h: Handle)
    requires Known(s, h) && SpareKnown(s, spare)
    ensures GoesOn(s, LoadOnly(s, spare), h)
  {
    AcquireGoesOn(s, spare, h);
    LoadOnlyIsAlike(s, spare);
    AlikeGoOn(s, Acquire(s, spare), s, LoadOnly(s, spare), h);
    hide GoesOn, Acquire, LoadOnly, Known, SpareKnown;
  }

  // Purged and then released.
  lemma DismissedGoesOn(s: State, co: Co, h: Handle)
    requires Known(s, h)
    ensures GoesOn(s, Release(Purge(s, co), co), h)
  {
    PurgeGoesOn(s, co, h);
    ReleaseGoesOn(Purge(s, co), co, h);
    Chain(s, Purge(s, co), Release(Purge(s, co), co), h);
    hide GoesOn, Purge, Release, Known;
  }

  lemma PurgeGoesOn(s: State, co: Co, h: Handle)
    requires h in s.hist.issued && (h in s.pending ==> s.pending[h] == s.hist.issued[h].co)
    ensures var s1 := Purge(s, co); GoesOn(s, s1, h) && (h in s1.pending ==> s1.hist.issued[h].co != co)
  {}

  lemma ReleaseGoesOn(s: State, co: Co, h: Handle)
    requires h in s.hist.issued && (h in s.pending ==> s.hist.issued[h].co != co)
    ensures GoesOn(s, Release(s, co), h)
  {
    hide PoolRelease;
  }

  // --- scripts ---

  lemma ParkGoesOn(s: State, co: Co, sleep: bool, h: Handle)
    requires Known(s, h)
    ensures GoesOn(s, Park(s, co, sleep), h)
  {}

  // The new handle is in its use, and has a timer if it is a sleep.
  lemma ParkIssues(s: State, sleep: bool)
    requires TopKnown(s)
    ensures var s1 := Park(s, Top(s), sleep); var h := s.timers.next;
            && h in s1.hist.issued && s1.hist.issued[h].sleep == sleep
            && s1.hist.issued == s.hist.issued[h := s1.hist.issued[h]]
            && h in s1.pending && !Over(s1, h) && (sleep ==> h in s1.timers.active)
  {}

  lemma CreateGoesOn(s: State, co: Co, h: Handle)
    requires Known(s, h) && co !in s.lua.cos
    ensures GoesOn(s, Created(s, co), h)
  {}

  lemma ScriptCoGoesOn(s: State, co: Co, st: CoState, h: Handle)
    requires IsScriptCo(s, co) && h in s.hist.issued
    ensures GoesOn(s, s.(lua := SetSt(s.lua, co, st)), h)
  {}

  lemma CollectGoesOn(s: State, co: Co, h: Handle)
    requires Known(s, h) && co !in s.pins.Values
    ensures GoesOn(s, s.(lua := s.lua.(cos := s.lua.cos - {co})), h)
  {
    assert h in s.pending ==> s.pending[h] in s.pending.Values;
  }

  // --- the end of a script ---

  lemma PopGoesOn(s: State, out: Outcome, h: Handle)
    requires TopKnown(s) && Known(s, h)
    ensures GoesOn(s, PopFrame(s, out), h) && Known(PopFrame(s, out), h)
  {}

  lemma YieldedGoesOn(s: State, loc: Location, h: Handle)
    requires TopKnown(s) && Known(s, h)
    ensures GoesOn(s, EndScript(s, Yielded(loc)), h)
  {
    var s0 := PopFrame(s, Yielded(loc));
    PopGoesOn(s, Yielded(loc), h);
    YieldIs(s, loc);
    hide EndScript, PopFrame, GoesOn, TopKnown, Known;
    AlikeGoOn(s, s0, s, EndScript(s, Yielded(loc)), h);
  }

  lemma EndedGoesOn(s: State, co: Co, h: Handle)
    requires TopKnown(s) && Known(s, h) && Top(s) == co && co in s.pool.active && h !in HandlesOf(s, co)
    ensures GoesOn(s, Ended(s, co), h)
  {}

  lemma GoneGoesOn(s: State, co: Co, h: Handle)
    requires TopKnown(s) && Known(s, h) && Top(s) == co && co in s.pool.active
    ensures GoesOn(s, Gone(s, co), h)
  {}

  // A module body that ends leaves its handles pending and its use over.
  lemma LeftBehindIsOver(s: State, out: Outcome, h: Handle)
    requires TopKnown(s) && Known(s, h) && LeavesBehind(s, ScriptEnd(out), h)
    ensures var s1 := EndScript(s, out);
            && h in s1.hist.issued && s1.hist.issued[h] == s.hist.issued[h] && h in s1.pending && Over(s1, h)
            && TimerGoesOn(s, s1, h)
  {
    EndRequireIs(s, Top(s), s.ctl[|s.ctl| - 1].after.caller, out);
    hide EndScript;
  }

  lemma EndGoesOn(s: State, out: Outcome, h: Handle)
    requires TopKnown(s) && h in s.hist.issued && Known(s, h) && !LeavesBehind(s, ScriptEnd(out), h)
    ensures GoesOn(s, EndScript(s, out), h)
  {
    var Frame(co, after) := s.ctl[|s.ctl| - 1];
    hide EndScript, PopFrame, Gone, Ended, GoesOn, Known;
    if out.Yielded? {
      YieldedGoesOn(s, out.loc, h);
    } else if IsScriptCo(s, co) {
      ScriptEndGoesOn(s, co, after, out, h);
    } else {
      PoolEndGoesOn(s, co, after, out, h);
    }
  }

  lemma PoolEndGoesOn(s: State, co: Co, after: After, out: Outcome, h: Handle)
    requires TopKnown(s) && h in s.hist.issued && Known(s, h) && s.ctl[|s.ctl| - 1] == Frame(co, after)
    requires co in s.pool.active
    requires !out.Yielded? && s.lua.cos[co].kind.Pooled? && !LeavesBehind(s, ScriptEnd(out), h)
    ensures GoesOn(s, EndScript(s, out), h)
  {
    hide EndScript, Gone, Ended, Known, GoesOn, Noted, PushDeliver, PushResume;
    if after.AfterRequire? {
      var e := Ended(s, co);
      EndedGoesOn(s, co, h);
      EndRequireIs(s, co, after.caller, out);
      PushResumeIsAlike(e, after.caller, RequireArgs(ResultOf(out)));
      AlikeGoOn(s, e, s, EndScript(s, out), h);
    } else {
      GoneGoesOn(s, co, h);
      EndIsAlike(s, co, after, out);
      AlikeGoOn(s, Gone(s, co), s, EndScript(s, out), h);
    }
  }

  lemma EndIsAlike(s: State, co: Co, after: After, out: Outcome)
    requires TopKnown(s) && s.ctl[|s.ctl| - 1] == Frame(co, after) && co in s.pool.active
    requires !out.Yielded? && s.lua.cos[co].kind.Pooled? && !after.AfterRequire?
    ensures Alike(Gone(s, co), EndScript(s, out))
  {
    hide EndScript, Gone, PushDeliver, Alike;
    var g := Gone(s, co);
    match after {
      case AfterTask(id) => EndTaskIs(s, co, id, out); DueIsAlike(g, TaskPromise(id), ResultOf(out));
      case AfterCall(id) => EndCallIs(s, co, id, out); DueIsAlike(g, HostCallback(id), ResultOf(out));
      case AfterTimeout => OtherEndIsAlike(s, co, after, out);
      case AfterResume => OtherEndIsAlike(s, co, after, out);
    }
  }

  lemma OtherEndIsAlike(s: State, co: Co, after: After, out: Outcome)
    requires PoolTop(s, co, after) && (after.AfterTimeout? || after.AfterResume?) && !out.Yielded?
    ensures Alike(Gone(s, co), EndScript(s, out))
  {
    hide EndScript, Gone, Noted, PushDeliver, Alike;
    EndOtherIs(s, co, after, out);
    NotedIsAlike(Gone(s, co), out);
    if co in s.completions { DueIsAlike(Gone(s, co), s.completions[co], ResultOf(out)); }
  }

  lemma DueIsAlike(s: State, hd: Handler, r: Result)
    ensures Alike(s, PushDeliver(s, hd, r))
  {}

  lemma ScriptEndGoesOn(s: State, co: Co, after: After, out: Outcome, h: Handle)
    requires TopKnown(s) && h in s.hist.issued && Known(s, h)
    requires s.ctl[|s.ctl| - 1] == Frame(co, after) && IsScriptCo(s, co) && !out.Yielded?
    ensures GoesOn(s, EndScript(s, out), h)
  {
    var s0 := PopFrame(s, out);
    PopGoesOn(s, out, h);
    ScriptEndIs(s, out);
    if !after.ByScript? {
      var s1 := Purge(s0, co);
      PurgeGoesOn(s0, co, h);
      Chain(s, s0, s1, h);
      NotedIsAlike(s1, out);
      AlikeGoOn(s, s1, s, Noted(s1, out), h);
    }
    hide EndScript, PopFrame, Purge, TopKnown, Noted, GoesOn;
  }

  lemma NotedIsAlike(s: State, out: Outcome)
    ensures Alike(s, Noted(s, out))
  {
    var s1 := Noted(s, out);
    assert s1.lua == s.lua && s1.timers == s.timers && s1.hist == s.hist && s1.pending == s.pending;
  }

  // --- closures ---

  lemma ResumedGoesOn(s: State, hh: Handle, args: seq<Value>, h: Handle)
    requires Known(s, h) && hh in s.pending && SuspendedAt(s.lua, s.pending[hh])
    ensures GoesOn(s, DoResume(s, hh, args), h) && hh !in DoResume(s, hh, args).pending
  {}

  lemma RefusedGoesOn(s: State, hh: Handle, args: seq<Value>, h: Handle)
    requires Known(s, h) && hh in s.pending && !SuspendedAt(s.lua, s.pending[hh]) && s.pending[hh] !in s.pool.active
    ensures GoesOn(s, DoResume(s, hh, args), h) && hh !in DoResume(s, hh, args).pending
  {
    var s1 := s.(pins := s.pins - {hh}, pending := s.pending - {hh});
    RefusedIs(s, hh, args);
    DroppedGoesOn(s, hh, h);
    PurgeGoesOn(s1, s.pending[hh], h);
    Chain(s, s1, Purge(s1, s.pending[hh]), h);
    AlikeGoOn(s, Purge(s1, s.pending[hh]), s, DoResume(s, hh, args), h);
    hide DoResume, Known, GoesOn;
  }

  lemma DroppedGoesOn(s: State, hh: Handle, h: Handle)
    requires Known(s, h) && hh in s.pending
    ensures var s1 := s.(pins := s.pins - {hh}, pending := s.pending - {hh});
            GoesOn(s, s1, h) && (h in s1.pending ==> s1.pending[h] == s1.hist.issued[h].co)
  {}

  lemma RefusedIs(s: State, hh: Handle, args: seq<Value>)
    requires hh in s.pending && !SuspendedAt(s.lua, s.pending[hh]) && s.pending[hh] !in s.pool.active
    ensures Alike(Purge(s.(pins := s.pins - {hh}, pending := s.pending - {hh}), s.pending[hh]), DoResume(s, hh, args))
    ensures hh !in DoResume(s, hh, args).pending
  {
    hide SetSt, PoolRelease;
  }

  lemma DoResumeGoesOn(s: State, hh: Handle, args: seq<Value>, h: Handle)
    requires Core(s) && Known(s, h) && s.ctl == []
    ensures GoesOn(s, DoResume(s, hh, args), h) && hh !in DoResume(s, hh, args).pending
  {
    if hh in s.pending {
      var co := s.pending[hh];
      if SuspendedAt(s.lua, co) {
        ResumedGoesOn(s, hh, args, h);
      } else {
        FailedIsNotOut(s, co);
        RefusedGoesOn(s, hh, args, h);
      }
    }
    hide Core, Known;
  }

  lemma RunTaskGoesOn(s: State, t: nat, spare: Slot, loads: bool, h: Handle)
    requires Known(s, h) && SpareKnown(s, spare) && t in s.exec.queue && s.exec.queue[t].Task?
    ensures GoesOn(s, RunTask(s, t, spare, loads), h)
  {
    var s1 := Dequeue(s, t);
    var s2 := RunTask(s, t, spare, loads);
    LoadOnlyGoesOn(s1, spare, h);
    EnterGoesOn(s1, spare, AfterTask(s.exec.queue[t].id), h);
    hide LoadOnly, Enter, Known, SpareKnown, GoesOn;
    UntouchedGoesOn(s1, s1, h);
    assert Alike(s1, s);
    if s.shuttingDown || s.interrupted {
      AlikeGoOn(s1, s1, s, s2, h);
    } else if s.exec.queue[t].kind.LoadScript? && !loads {
      AlikeGoOn(s1, LoadOnly(s1, spare), s, s2, h);
    } else {
      AlikeGoOn(s1, Enter(s1, spare, AfterTask(s.exec.queue[t].id)), s, s2, h);
    }
  }

  lemma RunRequireGoesOn(s: State, caller: Handle, spare: Slot, loads: bool, message: Value, h: Handle)
    requires Known(s, h) && SpareKnown(s, spare)
    ensures GoesOn(s, RunRequire(s, caller, spare, loads, message), h)
  {
    LoadOnlyGoesOn(s, spare, h);
    EnterGoesOn(s, spare, AfterRequire(caller), h);
    hide LoadOnly, Enter, Known, SpareKnown;
  }

  lemma RunLoadFileGoesOn(s: State, caller: Handle, spare: Slot, args: seq<Value>, h: Handle)
    requires Known(s, h) && SpareKnown(s, spare)
    ensures GoesOn(s, RunLoadFile(s, caller, spare, args), h)
  {
    LoadOnlyGoesOn(s, spare, h);
    hide LoadOnly, Known, SpareKnown;
  }

  lemma SleepExpiryGoesOn(s: State, t: nat, hh: Handle, h: Handle)
    requires Inv(s) && Known(s, h) && s.ctl == [] && t in s.exec.queue && s.exec.queue[t] == SleepExpiry(hh)
    ensures GoesOn(s, RunSleepExpiry(Dequeue(s, t), hh), h)
  {
    hide Core, DoResume;
    if hh in s.timers.active && !s.paused {
      var e := Expired(s, t, hh);
      ExpireKeeps(s, t, hh);
      DoResumeGoesOn(e, hh, [], h);
    }
  }

  lemma TimeoutExpiryGoesOn(s: State, t: nat, hh: Handle, fn: Ref, spare: Slot, h: Handle)
    requires Core(s) && Known(s, h) && t in s.exec.queue && s.exec.queue[t] == TimeoutExpiry(hh, fn)
    requires SpareSlot(s, spare)
    ensures GoesOn(s, RunTimeoutExpiry(Dequeue(s, t), hh, fn, spare), h)
  {
    if hh in s.timers.active {
      FiredIs(s, t, hh, fn, spare);
      SpareIsKnown(s, spare);
      TimeoutLive(s, t, hh, fn);
      hide Core;
      FiredGoesOn(s, t, hh, fn, spare, h);
      hide Enter, RunTimeoutExpiry, Known;
    }
  }

  lemma FiredGoesOn(s: State, t: nat, hh: Handle, fn: Ref, spare: Slot, h: Handle)
    requires Known(s, h) && SpareKnown(s, spare) && hh in s.timers.active && s.timers.active[hh].SetTimeout?
    ensures GoesOn(s, Enter(Fired(s, t, hh, fn), spare, AfterTimeout), h)
  {
    var f := Fired(s, t, hh, fn);
    assert Untouched(s, f, h) && Known(f, h) && SpareKnown(f, spare);
    UntouchedGoesOn(s, f, h);
    EnterGoesOn(f, spare, AfterTimeout, h);
    Chain(s, f, Enter(f, spare, AfterTimeout), h);
    hide GoesOn, Enter, Known, SpareKnown, Fired;
  }

  lemma TimeoutLive(s: State, t: nat, h: Handle, fn: Ref)
    requires Core(s) && t in s.exec.queue && s.exec.queue[t] == TimeoutExpiry(h, fn) && h in s.timers.active
    ensures s.timers.active[h].SetTimeout?
  {
    Split(s);
    hide Core, Machine, Handles, Timing, PoolInv, CtlInv, KeyInv, PendInv, ResumeInv, CallerInv, ClosedInv, TimerInv;
    assert s.timers.armed[h] == t;
  }

  lemma PassGoesOn(s: State, a: seq<Co>, b: seq<Co>, h: Handle)
    requires Known(s, h) && Enumerates(a, s.pool.active.Keys) && Enumerates(b, s.completions.Keys)
    ensures GoesOn(s, RunInterruptPass(s, a, b), h)
  {
    hide CancelAllLua, PoolReleaseAll, InterruptedItems, PlacesAfterSwap, Enumerates;
    assert CancelAllLua(s.lua, s.timers).cos == s.lua.cos by { CancelAllCos(s.lua, s.timers); }
  }

  lemma CancelAllCos(lua: Lua, timers: Timers)
    ensures CancelAllLua(lua, timers).cos == lua.cos
  {}

  lemma DownGoesOn(s: State, order: seq<Co>, h: Handle)
    requires Known(s, h) && Enumerates(order, s.completions.Keys)
    ensures GoesOn(s, Shutdown(s, order), h)
  {
    hide CancelAllLua, ShutdownSettlements, PlacesAfterShutdown, PoolRefs, PoolOwners, Enumerates;
    CancelAllCos(s.lua, s.timers);
  }

  predicate ResumesNobody(c: Closure) {
    c.RequireRun? || c.LoadFileRun? || c.InterruptPass? || c.ClearFlag?
  }

  lemma OtherClosureGoesOn(s: State, t: nat, ch: Choice, h: Handle)
    requires h in s.hist.issued && Known(s, h) && SpareKnown(s, ch.spare)
    requires Enabled(s, RunClosure(t, ch)) && ResumesNobody(s.exec.queue[t])
    ensures GoesOn(s, ApplyClosure(s, t, ch), h)
  {
    var s1 := Dequeue(s, t);
    assert Alike(s1, s) && SpareKnown(s1, ch.spare) && Known(s1, h);
    hide Known, SpareKnown, RunTask, DoResume, RunRequire, RunLoadFile, RunInterruptPass, RunSleepExpiry;
    hide RunTimeoutExpiry, GoesOn;
    match s.exec.queue[t] {
      case RequireRun(hh) =>
        RunRequireGoesOn(s1, hh, ch.spare, ch.loads, if ch.args == [] then 0 else ch.args[0], h);
      case LoadFileRun(hh) => RunLoadFileGoesOn(s1, hh, ch.spare, ch.args, h);
      case InterruptPass => PassGoesOn(s1, ch.coOrder, ch.handlerOrder, h);
      case ClearFlag => UntouchedGoesOn(s1, s1.(interrupted := false), h);
    }
    AlikeGoOn(s1, ApplyClosure(s, t, ch), s, ApplyClosure(s, t, ch), h);
  }

  lemma ClosureGoesOn(s: State, t: nat, ch: Choice, h: Handle)
    requires Inv(s) && h in s.hist.issued && Enabled(s, RunClosure(t, ch))
    ensures GoesOn(s, ApplyClosure(s, t, ch), h)
  {
    hide Core, PlaceInv, Known, SpareKnown, GoesOn;
    hide RunTask, DoResume, RunRequire, RunLoadFile, RunInterruptPass, RunSleepExpiry, RunTimeoutExpiry;
    IssuedIsKnown(s, h);
    SpareIsKnown(s, ch.spare);
    match s.exec.queue[t] {
      case Task(_, _) => RunTaskGoesOn(s, t, ch.spare, ch.loads, h);
      case Resume(hh, args) => QueuedResumeGoesOn(s, t, hh, args, h);
      case SleepExpiry(hh) => SleepExpiryGoesOn(s, t, hh, h);
      case TimeoutExpiry(hh, fn) => TimeoutExpiryGoesOn(s, t, hh, fn, ch.spare, h);
      case _ => OtherClosureGoesOn(s, t, ch, h);
    }
  }

  lemma QueuedResumeGoesOn(s: State, t: nat, hh: Handle, args: seq<Value>, h: Handle)
    requires Inv(s) && h in s.hist.issued && Known(s, h) && s.ctl == [] && t in s.exec.queue
    requires s.exec.queue[t] == Resume(hh, args)
    ensures GoesOn(s, if s.shuttingDown then Dequeue(s, t) else DoResume(Dequeue(s, t), hh, args), h)
  {
    var s1 := Dequeue(s, t);
    hide Core, PlaceInv, DoResume;
    DequeueKeeps(s, t);
    DoResumeGoesOn(s1, hh, args, h);
  }

  // --- every step ---

  lemma OtherGoesOn(s: State, step: Step, h: Handle)
    requires h in s.hist.issued && Known(s, h) && Enabled(s, step)
    requires (Posted(step) || step.ScriptSetTimeout? || step.RunHandler?)
    ensures GoesOn(s, Apply(s, step), h)
  {
    hide Known, GoesOn;
    match step {
      case RunHandler => DeliverIsAlike(s); hide DeliverTop;
      case ScriptSetTimeout(fn) => TimeoutUntouched(s, fn, h); hide TimeoutSet;
      case _ => PostedIsAlike(s, step); hide Apply;
    }
    UntouchedGoesOn(s, Apply(s, step), h);
  }

  lemma DeliverIsAlike(s: State)
    requires s.ctl != [] && s.ctl[|s.ctl| - 1].Deliver?
    ensures Alike(s, DeliverTop(s))
  {
    hide PushResume, Settle;
    var Deliver(hd, r) := s.ctl[|s.ctl| - 1];
    var s0 := s.(ctl := s.ctl[..|s.ctl| - 1]);
    SettleIsAlike(s0, hd.id, r);
    if hd.RequireDone? { PushResumeIsAlike(Settle(s0, hd.id, r), hd.caller, RequireArgs(r)); }
  }

  lemma SettleIsAlike(s: State, id: HandlerId, r: Result)
    ensures Alike(s, Settle(s, id, r))
  {}

  lemma PushResumeIsAlike(s: State, h: Handle, args: seq<Value>)
    ensures Alike(s, PushResume(s, h, args))
  {
    hide Schedule;
  }

  lemma TimeoutUntouched(s: State, fn: Ref, h: Handle)
    requires Known(s, h)
    ensures Untouched(s, TimeoutSet(s, fn), h)
  {
    hide Schedule;
  }

  lemma PostedIsAlike(s: State, step: Step)
    requires Enabled(s, step) && Posted(step)
    ensures Alike(s, Apply(s, step))
  {
    hide ApplyClosure, EndScript, Shutdown, HostCall, CancelCall, Park, Created, TimeoutSet, CancelTimer, DeliverTop;
    match step {
      case PostTask(kind) => TaskIsAlike(s, kind); hide PushTask;
      case PostInterrupt => hide Schedule;
      case PostClearInterrupt => hide Schedule;
      case PostResume(h, args) => PushResumeIsAlike(s, h, args); hide PushResume;
      case PostRequireRun(h) => GatedIsAlike(s, RequireRun(h)); hide PushGated;
      case PostLoadFileRun(h) => GatedIsAlike(s, LoadFileRun(h)); hide PushGated;
      case SetPaused(_) =>
      case PostBeginShutdown =>
      case TakeFault =>
    }
  }

  lemma GatedIsAlike(s: State, c: Closure)
    ensures Alike(s, PushGated(s, c))
  {
    hide Schedule;
  }

  lemma TaskIsAlike(s: State, kind: TaskKind)
    ensures Alike(s, PushTask(s, kind))
  {
    hide Schedule;
  }

  lemma HostCallGoesOn(s: State, spare: Slot, h: Handle)
    requires Known(s, h) && SpareKnown(s, spare)
    ensures GoesOn(s, HostCall(s, spare), h)
  {
    var s1 := NewHandlerId(s);
    EnterGoesOn(s1, spare, AfterCall(s.hist.nextId), h);
    hide Enter, Known, SpareKnown, GoesOn;
    AlikeGoOn(s1, Enter(s1, spare, AfterCall(s.hist.nextId)), s, HostCall(s, spare), h);
  }

  lemma CancelGoesOn(s: State, co: Co, h: Handle)
    requires Known(s, h)
    ensures GoesOn(s, CancelCall(s, co), h)
  {
    var s1 := if co in s.completions then
                s.(completions := s.completions - {co},
                   hist := s.hist.(cancelled := s.hist.cancelled + {s.completions[co].id},
                                   place := s.hist.place[s.completions[co].id := Cancelled]))
              else s;
    DismissedGoesOn(s1, co, h);
    hide Release, Purge, Known;
  }

  // What a step does to an issued handle.
  predicate Fate(s: State, step: Step, s1: State, h: Handle)
    requires h in s.hist.issued
  {
    && h in s1.hist.issued && s1.hist.issued[h] == s.hist.issued[h]
    && (h in s1.pending ==> h in s.pending)
    && (Over(s, h) ==> Over(s1, h))
    && (h in s1.pending && !Over(s, h) ==> (Over(s1, h) <==> LeavesBehind(s, step, h)))
    && (LeavesBehind(s, step, h) ==> Over(s1, h))
    && (h in s1.pending ==> (h in s1.timers.active <==> h in s.timers.active && step != ScriptClearTimeout(h)))
  }

  lemma StepDecides(s: State, step: Step, h: Handle)
    requires Inv(s) && Enabled(s, step) && h in s.hist.issued
    ensures Fate(s, step, Apply(s, step), h)
  {
    IssuedIsKnown(s, h);
    hide Core, PlaceInv, Known, TopKnown, SpareKnown, GoesOn;
    match step {
      case ScriptEnd(out) => TopIsKnown(s); EndDecides(s, out, h);
      case ScriptClearTimeout(hh) => ClearDecides(s, hh, h);
      case _ => QuietStep(s, step, h);
    }
  }

  lemma EndDecides(s: State, out: Outcome, h: Handle)
    requires TopKnown(s) && Known(s, h)
    ensures Fate(s, ScriptEnd(out), EndScript(s, out), h)
  {
    hide EndScript;
    if LeavesBehind(s, ScriptEnd(out), h) { LeftBehindIsOver(s, out, h); } else { EndGoesOn(s, out, h); }
  }

  lemma ClearDecides(s: State, hh: Handle, h: Handle)
    requires Known(s, h)
    ensures Fate(s, ScriptClearTimeout(hh), CancelTimer(s, hh), h)
  {}

  lemma QuietStep(s: State, step: Step, h: Handle)
    requires Inv(s) && Enabled(s, step) && h in s.hist.issued && Known(s, h)
    requires !step.ScriptEnd? && !step.ScriptClearTimeout?
    ensures Fate(s, step, Apply(s, step), h)
  {
    hide Core, PlaceInv, Known, TopKnown, SpareKnown, GoesOn;
    match step {
      case RunClosure(t, ch) => ClosureGoesOn(s, t, ch, h);
      case ScriptPark(sleep) => ParkGoesOn(s, Top(s), sleep, h);
      case ScriptCreate(co) => CreateGoesOn(s, co, h);
      case ScriptResume(co) => ByScriptGoesOn(s, co, h);
      case ScriptClose(co) => ScriptCoGoesOn(s, co, Dead, h);
      case ScriptRuns => UntouchedGoesOn(s, s, h);
      case Collect(co) => CollectGoesOn(s, co, h);
      case HostCalls(spare) => SpareIsKnown(s, spare); HostCallGoesOn(s, spare, h);
      case HostCancels(co) => CancelGoesOn(s, co, h);
      case HostShutsDown(order) => DownGoesOn(s, order, h);
      case _ => OtherGoesOn(s, step, h);
    }
    FateOfGoesOn(s, step, Apply(s, step), h);
    hide Apply, Fate, Enabled;
  }

  lemma ByScriptGoesOn(s: State, co: Co, h: Handle)
    requires IsScriptCo(s, co) && h in s.hist.issued
    ensures GoesOn(s, PushFrame(s, co, ByScript), h)
  {
    ScriptCoGoesOn(s, co, Running(|s.ctl|), h);
  }

  lemma FateOfGoesOn(s: State, step: Step, s1: State, h: Handle)
    requires h in s.hist.issued && GoesOn(s, s1, h) && !step.ScriptEnd? && !step.ScriptClearTimeout?
    ensures Fate(s, step, s1, h)
  {}
}
