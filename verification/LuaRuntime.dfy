/**
 LuaRuntime, updating its tables in place as the source does. Each method is proved to do
 what the specification function of SchedulerState says, and `Execute` takes any step of any
 run with these methods, so the theorems about runs are theorems about this class.

 A source method that calls `lua_resume` is cut there: its first half leaves a frame on
 `ctl`, its second half is the method named `...Returned`.
 */
module LuaRuntime {
  import opened SchedulerState
  import opened Wrappers
  import opened SchedulerSteps
  import opened SchedulerInvariant
  import opened SchedulerKeeps
  import opened SchedulerSafety
  import opened SchedulerRuns
  import opened SchedulerProgress
  import opened RuntimeParts

  // What the tables promise to the code that walks them.
  ghost predicate Sane(lua: Lua, pool: Pool, timers: Timers, pending: map<Handle, Co>) {
    && (forall h | h in pending && h in timers.active :: timers.active[h].Sleep?)
    && (forall co | co in pool.active :: co in lua.cos)
    && (forall i | 0 <= i < |pool.idle| :: pool.idle[i].co in lua.cos)
  }

  lemma InvIsSane(s: State)
    requires Core(s)
    ensures Sane(s.lua, s.pool, s.timers, s.pending)
  {
    Split(s);
    hide Core, Machine, Handles, Timing, PoolInv, HomeInv, CtlInv, KeyInv, ClosedInv, PendInv, ResumeInv;
    hide CallerInv, ArmedInv;
    assert forall h | h in s.timers.active && s.timers.active[h].SetTimeout? ::
        h in s.timers.timeouts && h !in s.hist.issued;
    assert forall h | h in s.pending :: h in s.hist.issued by { PendingIssued(s); }
  }

  lemma PendingIssued(s: State)
    requires PendInv(s)
    ensures forall h | h in s.pending :: h in s.hist.issued
  {
    assert forall h | h in s.pending :: Owned(s, h);
  }

  // The handles of `co` among `hs`.
  ghost function HandlesAmong(pending: map<Handle, Co>, co: Co, hs: set<Handle>): set<Handle> {
    set h | h in hs && h in pending && pending[h] == co
  }

  lemma WholeTable(s: State, co: Co)
    ensures HandlesAmong(s.pending, co, {}) == {} && HandlesAmong(s.pending, co, s.pending.Keys) == HandlesOf(s, co)
  {}

  lemma OneMoreHandle(pending: map<Handle, Co>, co: Co, hs: set<Handle>, h: Handle)
    requires h in pending && h !in hs
    ensures HandlesAmong(pending, co, hs + {h}) ==
              HandlesAmong(pending, co, hs) + (if pending[h] == co then {h} else {})
    ensures h !in HandlesAmong(pending, co, hs)
  {}

  class LuaRuntime {
    const lua: LuaVm
    const exec: Executor
    const pool: CoroutinePool
    const timers: TimerManager
    var pending: map<Handle, Co>
    // The registry table that keeps parked coroutines alive.
    var pins: map<Handle, Co>
    var completions: map<Co, Handler>
    var interrupted: bool
    var shuttingDown: bool
    var paused: bool
    var closed: bool
    var unhandled: Option<Fault>
    // The executor's call stack.
    var ctl: seq<Ctl>
    // What happened so far; no method of the source reads it.
    var hist: History

    constructor ()
      ensures Wired() && View() == INITIAL
      ensures fresh(lua) && fresh(exec) && fresh(pool) && fresh(timers)
    {
      var vm := new LuaVm();
      var executor := new Executor();
      var coPool := new CoroutinePool(vm);
      var timerMgr := new TimerManager(vm, executor);
      lua, exec, pool, timers := vm, executor, coPool, timerMgr;
      pending, pins, completions := map[], map[], map[];
      interrupted, shuttingDown, paused, closed := false, false, false, false;
      unhandled, ctl, hist := None, [], INITIAL.hist;
    }

    ghost predicate Wired() {
      pool.lua == lua && timers.lua == lua && timers.exec == exec
    }

    ghost predicate Ready()
      reads this, lua, pool, timers
    {
      Wired() && Sane(lua.View(), pool.View(), timers.View(), pending)
    }

    ghost function View(): State
      reads this, lua, exec, pool, timers
    {
      State(lua.View(), exec.View(), pool.View(), timers.View(), pending, pins, completions,
            interrupted, shuttingDown, paused, closed, unhandled, ctl, hist)
    }

    // --- pending handles ---

    method PinPendingCo(h: Handle, co: Co)
      modifies this`pins
      ensures pins == old(pins)[h := co]
    {
      pins := pins[h := co];
    }

    method UnpinPendingCo(h: Handle)
      modifies this`pins
      ensures pins == old(pins) - {h}
    {
      pins := pins - {h};
    }

    method PreYield(co: Co, sleep: bool) returns (h: Handle)
      requires Wired() && co in lua.cos
      modifies this, timers
      ensures View() == SchedulerState.PreYield(old(View()), co, sleep) && h == old(timers.next)
    {
      h := timers.NextHandle();
      PinPendingCo(h, co);
      pending := pending[h := co];
      hist := hist.(issued := hist.issued[h := Ticket(co, lua.cos[co].epoch, sleep)]);
    }

    method CleanupStalePendings(co: Co)
      requires Ready()
      modifies this`pending, this`pins, timers`active, lua
      ensures View() == Purge(old(View()), co)
    {
      WholeTable(View(), co);
      hide HandlesAmong, HandlesOf;
      var left := pending.Keys;
      ghost var done: set<Handle> := {};
      while left != {}
        invariant left == old(pending).Keys - done && done <= old(pending).Keys
        invariant pending == old(pending) - HandlesAmong(old(pending), co, done)
        invariant pins == old(pins) - HandlesAmong(old(pending), co, done)
        invariant timers.active == old(timers.active) - HandlesAmong(old(pending), co, done)
        invariant lua.View() == old(lua.View())
      {
        var h :| h in left;
        OneMoreHandle(old(pending), co, done, h);
        assert h in timers.active ==> timers.active[h].Sleep?;
        if pending[h] == co { DropPending(h); }
        left, done := left - {h}, done + {h};
      }
      assert done == old(pending).Keys;
    }

    // The timer, the pin and the entry of one handle that is not a setTimeout handle.
    method DropPending(h: Handle)
      requires Wired() && (h in timers.active ==> timers.active[h].Sleep?)
      modifies this`pending, this`pins, timers`active, lua
      ensures pending == old(pending) - {h} && pins == old(pins) - {h} && timers.active == old(timers.active) - {h}
      ensures lua.View() == old(lua.View())
    {
      timers.CancelTimer(h);
      UnpinPendingCo(h);
      pending := pending - {h};
    }

    method ReleaseCoroutine(co: Co)
      requires Ready()
      modifies pool, lua
      ensures View() == Release(old(View()), co)
    {
      pool.Release(co);
    }

    method RecordUnhandledError(f: Fault)
      modifies this`unhandled
      ensures View() == Record(old(View()), f)
    {
      if unhandled.None? { unhandled := Some(f); }
    }

    // `co` is still there: what is pending is pinned.
    method CheckResumable(co: Co, h: Handle) returns (ok: bool)
      requires Ready() && co in lua.cos
      modifies this, timers, lua, pool
      ensures ok == SuspendedAt(old(View()).lua, co)
      ensures View() == if ok then old(View()) else Release(Purge(Record(old(View()), NotResumable(h)), co), co)
    {
      ok := lua.Yielded(co);
      if !ok {
        RecordUnhandledError(NotResumable(h));
        CleanupStalePendings(co);
        ReleaseCoroutine(co);
      }
    }

    // --- lua_resume ---

    method LuaResume(co: Co, after: After)
      requires Wired() && co in lua.cos
      modifies this`ctl, lua
      ensures View() == PushFrame(old(View()), co, after)
    {
      lua.Mark(co, Running(|ctl|));
      ctl := ctl + [Frame(co, after)];
    }

    method DoResume(h: Handle, args: seq<Value>)
      requires Ready() && (h in pending ==> pending[h] in lua.cos)
      modifies this, timers, lua, pool
      ensures View() == SchedulerState.DoResume(old(View()), h, args)
    {
      if h !in pending { return; }
      var co := pending[h];
      UnpinPendingCo(h);
      pending := pending - {h};
      var ok := CheckResumable(co, h);
      if !ok { return; }
      ResumeFor(h, co, args);
    }

    // lua_resume of a suspended coroutine, for the handle that it waited on.
    method ResumeFor(h: Handle, co: Co, args: seq<Value>)
      requires Wired() && co in lua.cos
      modifies this`ctl, this`hist, lua
      ensures View() ==
                var s1 := PushFrame(old(View()), co, AfterResume);
                s1.(hist := s1.hist.(resumes := s1.hist.resumes + [Resumption(h, co, old(lua.cos)[co].epoch, args)]))
    {
      hist := hist.(resumes := hist.resumes + [Resumption(h, co, lua.cos[co].epoch, args)]);
      LuaResume(co, AfterResume);
    }

    // AcquireCoroutine and the start of lua_resume.
    method EnterCoroutine(spare: Slot, after: After) returns (co: Co)
      requires Ready()
      modifies this`ctl, pool, lua
      ensures View() == Enter(old(View()), spare, after) && co == AcquiredCo(old(pool.View()), spare)
    {
      co := pool.Acquire(spare);
      LuaResume(co, after);
    }

    // AcquireCoroutine, a chunk that is not run, ReleaseCoroutine.
    method LoadChunk(spare: Slot)
      requires Ready()
      modifies pool, lua
      ensures View() == LoadOnly(old(View()), spare)
    {
      var co := pool.Acquire(spare);
      pool.Release(co);
    }

    // --- handlers ---

    // The handler is about to run, with whatever host code it runs inline.
    method CallHandler(hd: Handler, r: Result)
      modifies this`ctl, this`hist
      ensures View() == PushDeliver(old(View()), hd, r)
    {
      hist := hist.(place := hist.place[hd.id := OnStack(|ctl|)]);
      ctl := ctl + [Deliver(hd, r)];
    }

    method SetCoCompleteCallback(co: Co, hd: Handler)
      modifies this`completions, this`hist
      ensures View() == PutHandler(old(View()), co, hd)
    {
      completions := completions[co := hd];
      hist := hist.(place := hist.place[hd.id := AtCo(co)]);
    }

    method RunHandler()
      requires Wired() && ctl != [] && ctl[|ctl| - 1].Deliver?
      modifies this, exec
      ensures View() == DeliverTop(old(View()))
    {
      var Deliver(hd, r) := ctl[|ctl| - 1];
      ctl := ctl[..|ctl| - 1];
      hist := hist.(settled := hist.settled + [Settlement(hd.id, r)],
                    place := hist.place[hd.id := Settled(|hist.settled|)]);
      if hd.RequireDone? { PushResume(hd.caller, RequireArgs(r)); }
    }

    // --- what follows lua_resume ---

    method MaybeRecycleCo(co: Co, out: Outcome)
      requires Ready() && !out.Yielded?
      modifies this, timers, lua, pool
      ensures View() == Recycle(old(View()), co, out)
    {
      CleanupStalePendings(co);
      if co in completions {
        var hd := completions[co];
        completions := completions - {co};
        ReleaseCoroutine(co);
        CallHandler(hd, ResultOf(out));
      } else {
        ReleaseCoroutine(co);
        if out.Raised? { RecordUnhandledError(UnhandledError(out.message)); }
      }
    }

    method ProcessTaskReturned(co: Co, id: HandlerId, out: Outcome)
      requires Ready()
      modifies this, timers, lua, pool
      ensures View() == TaskReturned(old(View()), co, id, out)
    {
      SetCoCompleteCallback(co, TaskPromise(id));
      if !out.Yielded? { MaybeRecycleCo(co, out); }
    }

    method CallWithCallbackReturned(co: Co, id: HandlerId, out: Outcome)
      requires Ready()
      modifies this, timers, lua, pool
      ensures View() == CallReturned(old(View()), co, id, out)
    {
      if out.Yielded? {
        SetCoCompleteCallback(co, HostCallback(id));
        return;
      }
      CleanupStalePendings(co);
      ReleaseCoroutine(co);
      CallHandler(HostCallback(id), ResultOf(out));
    }

    method ProcessRequireRunReturned(co: Co, caller: Handle, out: Outcome)
      requires Ready()
      modifies this, exec, lua, pool
      ensures View() == RequireReturned(old(View()), co, caller, out)
    {
      if out.Yielded? {
        var id := hist.nextId;
        hist := hist.(nextId := id + 1);
        SetCoCompleteCallback(co, RequireDone(id, caller));
      } else {
        PushResume(caller, RequireArgs(ResultOf(out)));
        ReleaseCoroutine(co);
      }
    }

    // The last lines of DoResume, PushResumeDirect and the timeout callback.
    method ResumeStopped(co: Co, out: Outcome)
      requires Ready()
      modifies this, timers, lua, pool
      ensures View() == ResumeReturned(old(View()), co, out)
    {
      if !out.Yielded? { MaybeRecycleCo(co, out); }
    }

    // The script on top of the stack stops: lua_resume returns to whoever called it.
    method ScriptStops(out: Outcome)
      requires Ready() && ctl != [] && ctl[|ctl| - 1].Frame? && ctl[|ctl| - 1].co in lua.cos
      modifies this, exec, timers, lua, pool
      ensures View() == EndScript(old(View()), out)
    {
      hide Sane, TaskReturned, CallReturned, RequireReturned, ResumeReturned;
      var Frame(co, after) := ctl[|ctl| - 1];
      SaneAfterSetSt(lua.View(), pool.View(), timers.View(), pending, co,
                     if out.Yielded? then Suspended(out.loc) else Dead);
      ctl := ctl[..|ctl| - 1];
      lua.Mark(co, if out.Yielded? then Suspended(out.loc) else Dead);
      match after {
        case ByScript =>
        case AfterTask(id) => ProcessTaskReturned(co, id, out);
        case AfterCall(id) => CallWithCallbackReturned(co, id, out);
        case AfterRequire(caller) => ProcessRequireRunReturned(co, caller, out);
        case AfterResume => ResumeStopped(co, out);
        case AfterTimeout => ResumeStopped(co, out);
      }
    }

    // --- submission, from any thread ---

    method PushTask(kind: TaskKind) returns (id: HandlerId)
      requires Wired()
      modifies this`hist, exec
      ensures View() == SchedulerState.PushTask(old(View()), kind) && id == old(hist.nextId)
    {
      id := hist.nextId;
      hist := hist.(nextId := id + 1);
      if shuttingDown || interrupted {
        hist := hist.(settled := hist.settled + [Settlement(id, Rejected)],
                      place := hist.place[id := Settled(|hist.settled|)]);
        return;
      }
      hist := hist.(place := hist.place[id := Queued(exec.nextTicket)]);
      exec.Schedule(Task(kind, id));
    }

    method PushResume(h: Handle, args: seq<Value>)
      modifies exec
      ensures View() == SchedulerState.PushResume(old(View()), h, args)
    {
      if shuttingDown { return; }
      exec.Schedule(Closure.Resume(h, args));
    }

    // PushRequireRun and PushLoadFileRun.
    method PushRun(c: Closure)
      modifies exec
      ensures View() == PushGated(old(View()), c)
    {
      if shuttingDown || interrupted { return; }
      exec.Schedule(c);
    }

    method Interrupt()
      modifies this`interrupted, exec
      ensures View() == SchedulerState.Interrupt(old(View()))
    {
      if shuttingDown { return; }
      var was := interrupted;
      interrupted := true;
      if was { return; }
      exec.Schedule(InterruptPass);
    }

    method ClearInterrupt()
      modifies exec
      ensures View() == Apply(old(View()), PostClearInterrupt)
    {
      exec.Schedule(ClearFlag);
    }

    method Pause()
      modifies this`paused
      ensures View() == Apply(old(View()), SetPaused(true))
    {
      paused := true;
    }

    method Resume()
      modifies this`paused
      ensures View() == Apply(old(View()), SetPaused(false))
    {
      paused := false;
    }

    method BeginShutdown()
      modifies this`shuttingDown
      ensures View() == Apply(old(View()), PostBeginShutdown)
    {
      shuttingDown := true;
    }

    method TakeUnhandledError() returns (f: Option<Fault>)
      modifies this`unhandled
      ensures f == old(unhandled) && View() == Apply(old(View()), TakeFault)
    {
      f, unhandled := unhandled, None;
    }

    // --- closures, on the executor ---

    method Dequeue(t: nat)
      modifies exec
      ensures View() == SchedulerState.Dequeue(old(View()), t)
    {
      exec.queue := exec.queue - {t};
    }

    // The closure that PushTask scheduled, and ProcessTask.
    method ProcessTask(t: nat, spare: Slot, loads: bool)
      requires Ready() && t in exec.queue && exec.queue[t].Task?
      modifies this, exec, pool, lua
      ensures View() == RunTask(old(View()), t, spare, loads)
    {
      var Task(kind, id) := exec.queue[t];
      Dequeue(t);
      if shuttingDown || interrupted {
        CallHandler(TaskPromise(id), Rejected);
      } else if kind.LoadScript? && !loads {
        LoadChunk(spare);
        CallHandler(TaskPromise(id), LoadError);
      } else {
        hist := hist.(place := hist.place[id := OnStack(|ctl|)]);
        var _ := EnterCoroutine(spare, AfterTask(id));
      }
    }

    method ProcessRequireRun(caller: Handle, spare: Slot, loads: bool, message: Value)
      requires Ready()
      modifies this`ctl, exec, pool, lua
      ensures View() == RunRequire(old(View()), caller, spare, loads, message)
    {
      if shuttingDown || interrupted { return; }
      if !loads {
        LoadChunk(spare);
        PushResume(caller, [NIL, message]);
      } else {
        var _ := EnterCoroutine(spare, AfterRequire(caller));
      }
    }

    method ProcessLoadFileRun(caller: Handle, spare: Slot, args: seq<Value>)
      requires Ready()
      modifies exec, pool, lua
      ensures View() == RunLoadFile(old(View()), caller, spare, args)
    {
      if shuttingDown || interrupted { return; }
      LoadChunk(spare);
      PushResume(caller, args);
    }

    method SleepExpired(h: Handle)
      requires Ready() && (h in pending ==> pending[h] in lua.cos)
      modifies this, exec, timers, lua, pool
      ensures View() == RunSleepExpiry(old(View()), h)
    {
      var was := timers.Erase(h);
      if !was { assert timers.active == old(timers.active); return; }
      if paused {
        timers.AddSleepTimer(h);
      } else {
        DoResume(h, []);
      }
    }

    method TimeoutExpired(h: Handle, fn: Ref, spare: Slot)
      requires Ready() && SpareSlot(View(), spare) && (h in timers.active ==> fn in lua.registry)
      modifies this`ctl, timers, lua, pool
      ensures View() == RunTimeoutExpiry(old(View()), h, fn, spare)
    {
      var was := timers.Erase(h);
      if !was { assert timers.active == old(timers.active); return; }
      timers.fired := timers.fired + multiset{h};
      RunTimeout(fn, spare);
    }

    // on_timeout_: the function's slot is given back once a coroutine has it.
    method RunTimeout(fn: Ref, spare: Slot)
      requires Ready() && SpareSlot(View(), spare) && fn in lua.registry
      modifies this`ctl, lua, pool
      ensures View() ==
                var s1 := SchedulerState.Acquire(old(View()), spare);
                PushFrame(s1.(lua := SchedulerState.Unref(s1.lua, fn)),
                          AcquiredCo(old(pool.View()), spare), AfterTimeout)
    {
      var co := pool.Acquire(spare);
      lua.Unref(fn);
      LuaResume(co, AfterTimeout);
    }

    method UnpinAll()
      modifies this`pins
      ensures pins == old(pins) - pending.Keys
    {
      var left := pending.Keys;
      while left != {}
        invariant left <= pending.Keys
        invariant pins == old(pins) - (pending.Keys - left)
      {
        var h :| h in left;
        UnpinPendingCo(h);
        left := left - {h};
      }
    }

    // Where each awaited coroutine stands, in the order the completions are walked.
    method CaptureAll(order: seq<Co>) returns (items: seq<Ctl>)
      requires forall co | co in order :: co in completions
      requires forall co | co in completions :: co in lua.cos
      ensures items == InterruptedItems(View(), order)
    {
      items := [];
      for i := 0 to |order|
        invariant items == InterruptedItems(View(), order)[..i]
      {
        var st := lua.cos[order[i]].st;
        items := items + [Deliver(completions[order[i]], Interrupted(if st.Suspended? then st.loc else 0))];
      }
    }

    // Both tables are emptied, and the pin table with them.
    method DropTables()
      modifies this`completions, this`pending, this`pins
      ensures completions == map[] && pending == map[] && pins == old(pins) - old(pending).Keys
    {
      completions := map[];
      UnpinAll();
      pending := map[];
    }

    // CancelAll, then ReleaseAll.
    method Abandon(coOrder: seq<Co>)
      requires Wired() && TimerRefsLive(lua.View(), timers.View()) && Enumerates(coOrder, pool.active.Keys)
      requires pool.active.Keys <= lua.cos.Keys
      modifies timers`active, lua, pool
      ensures timers.View() == old(timers.View()).(active := map[])
      ensures lua.View() == ResetAll(CancelAllLua(old(lua.View()), old(timers.View())), old(pool.active.Keys))
      ensures pool.View() == PoolReleaseAll(old(pool.View()), coOrder)
    {
      timers.CancelAll();
      pool.ReleaseAll(coOrder);
    }

    // Interrupt()'s closure: everything is captured before anything is released.
    method InterruptCompletionPass(coOrder: seq<Co>, handlerOrder: seq<Co>)
      requires Wired() && TimerRefsLive(lua.View(), timers.View()) && pool.active.Keys <= lua.cos.Keys
      requires Enumerates(coOrder, pool.active.Keys) && Enumerates(handlerOrder, completions.Keys)
      requires forall co | co in completions :: co in lua.cos
      modifies this, timers, lua, pool
      ensures View() == RunInterruptPass(old(View()), coOrder, handlerOrder)
    {
      hide CancelAllLua, ResetAll, PoolReleaseAll, PlacesAfterSwap, InterruptedItems, TimerRefsLive;
      if shuttingDown { return; }
      var items := CaptureAll(handlerOrder);
      DropTables();
      Abandon(coOrder);
      DeliverAll(items, PlacesAfterSwap(hist.place, |ctl|, handlerOrder));
    }

    // The handlers are called, each with the result captured for it.
    method DeliverAll(items: seq<Ctl>, place: map<HandlerId, Place>)
      modifies this`ctl, this`hist
      ensures View() == old(View()).(ctl := old(ctl) + items, hist := old(hist).(place := place))
    {
      hist := hist.(place := place);
      ctl := ctl + items;
    }

    // --- host, on the executor ---

    // AcquireCoroutine and CallWithCallback (CallAsync, DoFileAsync and DoBufferAsync alike).
    method CallWithCallback(spare: Slot) returns (id: HandlerId)
      requires Ready()
      modifies this`ctl, this`hist, pool, lua
      ensures View() == HostCall(old(View()), spare) && id == old(hist.nextId)
    {
      id := hist.nextId;
      hist := hist.(nextId := id + 1, place := hist.place[id := OnStack(|ctl|)]);
      var _ := EnterCoroutine(spare, AfterCall(id));
    }

    method CancelCall(co: Co)
      requires Ready()
      modifies this, timers, lua, pool
      ensures View() == SchedulerState.CancelCall(old(View()), co)
    {
      if co in completions {
        var id := completions[co].id;
        completions := completions - {co};
        hist := hist.(cancelled := hist.cancelled + {id}, place := hist.place[id := Cancelled]);
      }
      CleanupStalePendings(co);
      ReleaseCoroutine(co);
    }

    method SettleAll(order: seq<Co>) returns (log: seq<Settlement>)
      requires forall co | co in order :: co in completions
      requires forall co | co in completions :: co in lua.cos
      ensures log == ShutdownSettlements(View(), order)
    {
      log := [];
      for i := 0 to |order|
        invariant log == ShutdownSettlements(View(), order)[..i]
      {
        var st := lua.cos[order[i]].st;
        log := log + [Settlement(completions[order[i]].id, ShutDown(if st.Suspended? then st.loc else 0))];
      }
    }

    // CancelAll, then the pool's Shutdown.
    method TearDown()
      requires Wired() && TimerRefsLive(lua.View(), timers.View()) && Anchored(lua.View(), pool.View())
      modifies timers`active, lua, pool
      ensures timers.View() == old(timers.View()).(active := map[])
      ensures lua.View() == PoolShutdownLua(CancelAllLua(old(lua.View()), old(timers.View())), old(pool.View()))
      ensures pool.View() == Pool(map[], [])
    {
      AnchoredAfterCancel(lua.View(), timers.View(), pool.View());
      hide CancelAllLua, PoolShutdownLua, Anchored;
      timers.CancelAll();
      pool.Shutdown();
    }

    method Shutdown(order: seq<Co>)
      requires Wired() && TimerRefsLive(lua.View(), timers.View()) && Anchored(lua.View(), pool.View())
      requires Enumerates(order, completions.Keys) && pins == pending
      requires forall co | co in completions :: co in lua.cos
      modifies this, timers, lua, pool
      ensures View() == SchedulerState.Shutdown(old(View()), order)
    {
      hide CancelAllLua, PoolShutdownLua, PlacesAfterShutdown, ShutdownSettlements, TimerRefsLive, Anchored;
      if shuttingDown { return; }
      SettleAndDrop(order);
      TearDown();
      closed := true;
    }

    method SettleAndDrop(order: seq<Co>)
      requires Enumerates(order, completions.Keys) && pins == pending
      requires forall co | co in completions :: co in lua.cos
      modifies this
      ensures View() == old(View()).(shuttingDown := true, completions := map[], pending := map[], pins := map[],
                hist := old(hist).(settled := old(hist).settled + ShutdownSettlements(old(View()), order),
                                   place := PlacesAfterShutdown(old(hist).place, |old(hist).settled|, order)))
    {
      hide PlacesAfterShutdown, ShutdownSettlements;
      var log := SettleAll(order);
      shuttingDown := true;
      DropTables();
      hist := hist.(settled := hist.settled + log, place := PlacesAfterShutdown(hist.place, |hist.settled|, order));
    }

    // --- what scripts call ---

    method BuiltinSleep(co: Co)
      requires Wired() && co in lua.cos
      modifies this, timers, exec
      ensures View() == Park(old(View()), co, true)
    {
      var h := PreYield(co, true);
      timers.AddSleepTimer(h);
    }

    // `fn` is the slot that luaL_ref found.
    method BuiltinSetTimeout(fn: Ref) returns (h: Handle)
      requires Wired()
      modifies timers, exec, lua
      ensures View() == TimeoutSet(old(View()), fn) && h == old(timers.next)
    {
      lua.registry := lua.registry[fn := TimerFn(timers.next)];
      h := timers.AddTimeoutTimer(fn);
    }

    method BuiltinClearTimeout(h: Handle)
      requires Wired() && TimerRefsLive(lua.View(), timers.View())
      modifies timers`active, lua
      ensures View() == CancelTimer(old(View()), h)
    {
      timers.CancelTimer(h);
    }

    // --- one step, whatever it is ---

    // The closure that PushResume scheduled: the flag is tested again.
    method RunResume(h: Handle, args: seq<Value>)
      requires Ready() && (h in pending ==> pending[h] in lua.cos)
      modifies this, timers, lua, pool
      ensures View() == if old(shuttingDown) then old(View()) else SchedulerState.DoResume(old(View()), h, args)
    {
      if shuttingDown { return; }
      DoResume(h, args);
    }

    // The executor takes a closure and runs it.
    method RunClosure(t: nat, ch: Choice)
      requires Wired() && Lookups(View()) && Enabled(View(), Step.RunClosure(t, ch))
      modifies this, exec, timers, lua, pool
      ensures View() == ApplyClosure(old(View()), t, ch)
    {
      hide SchedulerState.DoResume, RunTask, RunRequire, RunLoadFile, RunInterruptPass, RunSleepExpiry;
      hide RunTimeoutExpiry;
      hide Sane, TimerRefsLive, Anchored;
      match exec.queue[t] {
        case Resume(h, args) => Dequeue(t); RunResume(h, args);
        case SleepExpiry(h) => Dequeue(t); SleepExpired(h);
        case TimeoutExpiry(h, fn) => Dequeue(t); TimeoutExpired(h, fn, ch.spare);
        case _ => RunOtherClosure(t, ch);
      }
    }

    method RunOtherClosure(t: nat, ch: Choice)
      requires Wired() && Lookups(View()) && Enabled(View(), Step.RunClosure(t, ch))
      requires var c := exec.queue[t]; !c.Resume? && !c.SleepExpiry? && !c.TimeoutExpiry?
      modifies this, exec, timers, lua, pool
      ensures View() == ApplyClosure(old(View()), t, ch)
    {
      hide RunTask, RunRequire, RunLoadFile, RunInterruptPass;
      hide Sane, TimerRefsLive, Anchored;
      match exec.queue[t] {
        case Task(_, _) => ProcessTask(t, ch.spare, ch.loads);
        case RequireRun(h) =>
          Dequeue(t);
          ProcessRequireRun(h, ch.spare, ch.loads, if ch.args == [] then 0 else ch.args[0]);
        case LoadFileRun(h) => Dequeue(t); ProcessLoadFileRun(h, ch.spare, ch.args);
        case InterruptPass =>
          SaneKeys(View());
          Dequeue(t);
          InterruptCompletionPass(ch.coOrder, ch.handlerOrder);
        case ClearFlag => Dequeue(t); interrupted := false;
      }
    }

    // What a script does, and the collector behind it.
    method RunScript(step: Step)
      requires Wired() && Lookups(View()) && Enabled(View(), step)
      requires FromScript(step) || step.ScriptPark? || step.ScriptEnd?
      modifies this, exec, timers, lua, pool
      ensures View() == Apply(old(View()), step)
    {
      hide EndScript, ApplyClosure, CancelTimer, Sane, TimerRefsLive, Anchored, SetSt;
      hide SchedulerState.PreYield, TimeoutSet;
      match step {
        case ScriptPark(sleep) =>
          var co := ctl[|ctl| - 1].co;
          if sleep { BuiltinSleep(co); } else { var _ := PreYield(co, false); }
        case ScriptSetTimeout(fn) => var _ := BuiltinSetTimeout(fn);
        case ScriptClearTimeout(h) => BuiltinClearTimeout(h);
        case ScriptCreate(co) => lua.Create(co);
        case ScriptResume(co) => LuaResume(co, ByScript);
        case ScriptClose(co) => lua.Mark(co, Dead);
        case ScriptRuns =>
        case ScriptEnd(out) => ScriptStops(out);
        case Collect(co) => lua.Collect(co);
      }
    }

    // What other threads do.
    method RunPosted(step: Step)
      requires Wired() && Posted(step) && Enabled(View(), step)
      modifies this, exec
      ensures View() == Apply(old(View()), step)
    {
      hide SchedulerState.PushTask, SchedulerState.PushResume, PushGated, SchedulerState.Interrupt;
      match step {
        case PostTask(kind) => var _ := PushTask(kind);
        case PostResume(h, args) => PushResume(h, args);
        case PostRequireRun(h) => PushRun(Closure.RequireRun(h));
        case PostLoadFileRun(h) => PushRun(Closure.LoadFileRun(h));
        case PostClearInterrupt => ClearInterrupt();
        case PostInterrupt => Interrupt();
        case SetPaused(b) => if b { Pause(); } else { Resume(); }
        case PostBeginShutdown => BeginShutdown();
        case TakeFault => var _ := TakeUnhandledError();
      }
    }

    method RunQueued(step: Step)
      requires Wired() && Lookups(View()) && Enabled(View(), step) && step.RunClosure?
      modifies this, exec, timers, lua, pool
      ensures View() == Apply(old(View()), step)
    {
      hide Lookups, ApplyClosure;
      RunClosure(step.t, step.choice);
    }

    // What the host does on the executor.
    method RunHost(step: Step)
      requires Wired() && Lookups(View()) && Enabled(View(), step)
      requires step.RunHandler? || step.HostCalls? || step.HostCancels? || step.HostShutsDown?
      modifies this, exec, timers, lua, pool
      ensures View() == Apply(old(View()), step)
    {
      hide DeliverTop, HostCall, SchedulerState.CancelCall, SchedulerState.Shutdown, Sane, TimerRefsLive, Anchored;
      match step {
        case RunHandler => RunHandler();
        case HostCalls(spare) => var _ := CallWithCallback(spare);
        case HostCancels(co) => CancelCall(co);
        case HostShutsDown(order) => Shutdown(order);
      }
    }

    /** Every step of every run is taken by these methods, in a state where they may be called. */
    method Execute(step: Step)
      requires Wired() && Inv(View()) && Enabled(View(), step)
      modifies this, exec, timers, lua, pool
      ensures View() == Apply(old(View()), step) && Inv(View())
    {
      hide Inv, Lookups, Apply, Enabled;
      LookupsSucceed(View());
      StepKeeps(View(), step);
      if step.RunClosure? {
        RunQueued(step);
      } else if Posted(step) {
        RunPosted(step);
      } else if step.RunHandler? || step.HostCalls? || step.HostCancels? || step.HostShutsDown? {
        RunHost(step);
      } else {
        RunScript(step);
      }
    }
  }

  lemma SaneKeys(s: State)
    requires Sane(s.lua, s.pool, s.timers, s.pending)
    ensures s.pool.active.Keys <= s.lua.cos.Keys
  {}

  // What the methods rely on in a state.
  ghost predicate Lookups(s: State) {
    && Sane(s.lua, s.pool, s.timers, s.pending) && TimerRefsLive(s.lua, s.timers) && Anchored(s.lua, s.pool)
    && s.pins == s.pending
    && (forall co | co in s.completions :: co in s.lua.cos)
    && (forall h | h in s.pending :: s.pending[h] in s.lua.cos)
    && (ScriptOnTop(s) ==> Top(s) in s.lua.cos)
    && (forall t | t in s.exec.queue && s.exec.queue[t].TimeoutExpiry? ::
          s.exec.queue[t].h in s.timers.active ==> s.exec.queue[t].fn in s.lua.registry)
  }

  lemma SaneAfterSetSt(lua: Lua, pool: Pool, timers: Timers, pending: map<Handle, Co>, co: Co, st: CoState)
    requires Sane(lua, pool, timers, pending)
    ensures Sane(SetSt(lua, co, st), pool, timers, pending)
  {}

  /**
   In every reachable state the preconditions of the methods above hold: what the code
   looks up is there, and every thread and registry slot it touches still exists.
   */
  lemma LookupsSucceed(s: State)
    requires Inv(s)
    ensures Lookups(s)
  {
    hide Sane, TimerRefsLive, Anchored, PlaceInv;
    InvIsSane(s);
    TablesAnchored(s);
    if ScriptOnTop(s) { TopFacts(s); }
    forall t | t in s.exec.queue && s.exec.queue[t].TimeoutExpiry? && s.exec.queue[t].h in s.timers.active
      ensures s.exec.queue[t].fn in s.lua.registry
    {
      TimeoutSlot(s, t, s.exec.queue[t].h, s.exec.queue[t].fn);
    }
    hide Core;
    PendingExists(s);
  }

  lemma TablesAnchored(s: State)
    requires Core(s)
    ensures TimerRefsLive(s.lua, s.timers) && Anchored(s.lua, s.pool)
    ensures forall co | co in s.completions :: co in s.lua.cos
  {
    hide Core, Machine, Handles, Timing, PoolInv, TimerInv, KeyInv, PendInv, CtlInv, ClosedInv, CallerInv;
    hide ResumeInv, ArmedInv;
    hide TimerRefsLive, Anchored, IdleInv, ActiveInv, HomeInv;
    Split(s);
    TimersAreLive(s);
    PoolIsAnchored(s);
    CompletionsExist(s);
  }

  lemma TimersAreLive(s: State)
    requires TimerInv(s)
    ensures TimerRefsLive(s.lua, s.timers)
  {}

  lemma PoolIsAnchored(s: State)
    requires PoolInv(s)
    ensures Anchored(s.lua, s.pool)
  {}

  lemma CompletionsExist(s: State)
    requires KeyInv(s)
    ensures forall co | co in s.completions :: co in s.lua.cos
  {}

  lemma PendingExists(s: State)
    requires Core(s)
    ensures s.pins == s.pending && forall h | h in s.pending :: s.pending[h] in s.lua.cos
  {
    Split(s);
    hide Core, Machine, Handles, Timing, PoolInv, CtlInv, KeyInv, ClosedInv, CallerInv, ResumeInv, ArmedInv, TimerInv;
    assert forall h | h in s.pending :: Owned(s, h);
  }

  ghost predicate TimerRefsLive(lua: Lua, timers: Timers) {
    forall h | h in timers.active && timers.active[h].SetTimeout? ::
      timers.active[h].fn in lua.registry && lua.registry[timers.active[h].fn] == TimerFn(h)
  }

  lemma AnchoredAfterCancel(lua: Lua, timers: Timers, pool: Pool)
    requires Anchored(lua, pool) && TimerRefsLive(lua, timers)
    ensures Anchored(CancelAllLua(lua, timers), pool)
  {}
}
