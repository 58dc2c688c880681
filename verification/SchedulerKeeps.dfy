/**
 Each operation of the runtime keeps the invariants, one cluster at a time.

 The lemmas here are the small print: `<Operation>Machine`, `<Operation>Handles` and
 `<Operation>Timing` look at the definitions, `<Operation>Keeps` puts them together.
 */
module SchedulerKeeps {
  import opened SchedulerState
  import opened SchedulerSteps
  import opened SchedulerInvariant

  lemma Split(s: State)
    requires Core(s)
    ensures Machine(s) && Handles(s) && Timing(s)
    ensures PoolInv(s) && CtlInv(s) && KeyInv(s) && ClosedInv(s)
    ensures PendInv(s) && ResumeInv(s) && CallerInv(s) && ArmedInv(s) && TimerInv(s)
    ensures IdleInv(s) && ActiveInv(s) && HomeInv(s)
  {}

  lemma Join(s: State)
    requires Machine(s) && Handles(s) && Timing(s)
    ensures Core(s)
  {}

  lemma JoinMachine(s: State)
    requires IdleInv(s) && ActiveInv(s) && HomeInv(s) && CtlInv(s) && KeyInv(s) && ClosedInv(s)
    ensures Machine(s)
  {}

  // --- the idle list ---

  lemma IdleAppend(idle: seq<Slot>, slot: Slot)
    ensures forall co :: InIdle(idle + [slot], co) <==> InIdle(idle, co) || co == slot.co
  {
    forall co ensures InIdle(idle + [slot], co) <==> InIdle(idle, co) || co == slot.co {
      assert (idle + [slot])[|idle|] == slot;
      if InIdle(idle, co) {
        var i :| 0 <= i < |idle| && idle[i].co == co;
        assert (idle + [slot])[i].co == co;
      }
    }
  }

  lemma IdleLast(idle: seq<Slot>)
    requires idle != []
    ensures forall co :: InIdle(idle, co) <==> InIdle(idle[..|idle| - 1], co) || co == idle[|idle| - 1].co
  {
    assert idle == idle[..|idle| - 1] + [idle[|idle| - 1]];
    IdleAppend(idle[..|idle| - 1], idle[|idle| - 1]);
  }

  // --- the queue ---

  predicate CanSchedule(s: State, c: Closure) {
    !ForTimer(c) && (c.Resume? || c.RequireRun? || c.LoadFileRun? ==> AsyncHandle(s, c.h))
  }

  lemma ScheduleMachine(s: State, c: Closure)
    requires Machine(s) && PendInv(s)
    requires CanSchedule(s, c)
    ensures Machine(s.(exec := SchedulerState.Schedule(s.exec, c)))
  {}

  lemma ScheduleHandles(s: State, c: Closure)
    requires Handles(s) && PoolInv(s) && CtlInv(s)
    requires CanSchedule(s, c)
    ensures Handles(s.(exec := SchedulerState.Schedule(s.exec, c)))
  {}

  lemma ScheduleTiming(s: State, c: Closure)
    requires Timing(s) && PendInv(s)
    requires CanSchedule(s, c)
    ensures Timing(s.(exec := SchedulerState.Schedule(s.exec, c)))
  {}

  lemma ScheduleKeeps(s: State, c: Closure)
    requires Core(s)
    requires CanSchedule(s, c)
    ensures Core(s.(exec := SchedulerState.Schedule(s.exec, c)))
  {
    var s1 := s.(exec := SchedulerState.Schedule(s.exec, c));
    hide *;
    Split(s);
    ScheduleMachine(s, c);
    ScheduleHandles(s, c);
    ScheduleTiming(s, c);
    Join(s1);
  }

  // --- a closure that is not a live timer leaves the queue ---

  predicate Inert(s: State, t: nat) {
    t in s.exec.queue && (ForTimer(s.exec.queue[t]) ==> s.exec.queue[t].h !in s.timers.active)
  }

  lemma DequeueMachine(s: State, t: nat)
    requires Machine(s) && PendInv(s)
    requires Inert(s, t)
    ensures Machine(SchedulerState.Dequeue(s, t))
  {}

  lemma DequeueHandles(s: State, t: nat)
    requires Handles(s) && PoolInv(s) && CtlInv(s)
    requires Inert(s, t)
    ensures Handles(SchedulerState.Dequeue(s, t))
  {}

  lemma DequeueTiming(s: State, t: nat)
    requires Timing(s) && PendInv(s)
    requires Inert(s, t)
    ensures Timing(SchedulerState.Dequeue(s, t))
  {}

  lemma DequeueKeeps(s: State, t: nat)
    requires Core(s)
    requires Inert(s, t)
    ensures Core(SchedulerState.Dequeue(s, t))
  {
    var s1 := SchedulerState.Dequeue(s, t);
    hide *;
    Split(s);
    DequeueMachine(s, t);
    DequeueHandles(s, t);
    DequeueTiming(s, t);
    Join(s1);
  }

  // --- a live sleep expires ---

  lemma ExpireArmed(s: State, t: nat, h: Handle)
    requires ArmedInv(s) && t in s.exec.queue && s.exec.queue[t] == SleepExpiry(h) && h in s.timers.active
    ensures ArmedInv(Expired(s, t, h)) && s.timers.active[h] == Sleep
  {}

  lemma ExpireTimer(s: State, t: nat, h: Handle)
    requires TimerInv(s) && h in s.timers.active && s.timers.active[h] == Sleep
    ensures TimerInv(Expired(s, t, h))
  {}

  function Expired(s: State, t: nat, h: Handle): State {
    var s1 := Dequeue(s, t);
    s1.(timers := s1.timers.(active := s1.timers.active - {h}))
  }

  lemma ExpireMachine(s: State, t: nat, h: Handle)
    requires Machine(s) && PendInv(s)
    requires t in s.exec.queue && s.exec.queue[t] == SleepExpiry(h) && h in s.timers.active
    ensures Machine(Expired(s, t, h))
  {}

  lemma ExpireHandles(s: State, t: nat, h: Handle)
    requires Handles(s) && PoolInv(s) && CtlInv(s)
    requires t in s.exec.queue && s.exec.queue[t] == SleepExpiry(h) && h in s.timers.active
    ensures Handles(Expired(s, t, h))
  {}

  lemma ExpireTiming(s: State, t: nat, h: Handle)
    requires Timing(s)
    requires t in s.exec.queue && s.exec.queue[t] == SleepExpiry(h) && h in s.timers.active
    ensures Timing(Expired(s, t, h))
  { ExpireArmed(s, t, h); ExpireTimer(s, t, h); }

  lemma ExpireKeeps(s: State, t: nat, h: Handle)
    requires Core(s)
    requires t in s.exec.queue && s.exec.queue[t] == SleepExpiry(h) && h in s.timers.active
    ensures Core(Expired(s, t, h))
  {
    var s1 := Expired(s, t, h);
    hide *;
    Split(s);
    ExpireMachine(s, t, h);
    ExpireHandles(s, t, h);
    ExpireTiming(s, t, h);
    Join(s1);
  }


  // --- a live timeout fires ---

  function Fired(s: State, t: nat, h: Handle, fn: Ref): State {
    var s1 := Expired(s, t, h);
    s1.(timers := s1.timers.(fired := s1.timers.fired + multiset{h}), lua := Unref(s1.lua, fn))
  }

  lemma FireArmed(s: State, t: nat, h: Handle, fn: Ref)
    requires ArmedInv(s)
    requires t in s.exec.queue && s.exec.queue[t] == TimeoutExpiry(h, fn) && h in s.timers.active
    ensures ArmedInv(Fired(s, t, h, fn)) && s.timers.active[h] == SetTimeout(fn)
  {}

  lemma FireTimer(s: State, t: nat, h: Handle, fn: Ref)
    requires TimerInv(s)
    requires h in s.timers.active && s.timers.active[h] == SetTimeout(fn)
    ensures TimerInv(Fired(s, t, h, fn))
  {
    var s1 := Fired(s, t, h, fn);
    assert s1.lua.freed == s.lua.freed + multiset{TimerFn(h)};
    assert s1.lua.registry == s.lua.registry - {fn};
  }

  lemma FirePool(s: State, t: nat, h: Handle, fn: Ref)
    requires PoolInv(s) && Timing(s)
    requires t in s.exec.queue && s.exec.queue[t] == TimeoutExpiry(h, fn) && h in s.timers.active
    ensures IdleInv(Fired(s, t, h, fn)) && ActiveInv(Fired(s, t, h, fn)) && HomeInv(Fired(s, t, h, fn))
  {}

  lemma FireCtl(s: State, t: nat, h: Handle, fn: Ref)
    requires Machine(s)
    requires t in s.exec.queue && s.exec.queue[t] == TimeoutExpiry(h, fn) && h in s.timers.active
    ensures CtlInv(Fired(s, t, h, fn)) && KeyInv(Fired(s, t, h, fn)) && ClosedInv(Fired(s, t, h, fn))
  {}

  lemma FireHandles(s: State, t: nat, h: Handle, fn: Ref)
    requires Handles(s) && PoolInv(s) && CtlInv(s)
    requires t in s.exec.queue && s.exec.queue[t] == TimeoutExpiry(h, fn) && h in s.timers.active
    ensures Handles(Fired(s, t, h, fn))
  {}

  lemma FireTiming(s: State, t: nat, h: Handle, fn: Ref)
    requires Timing(s)
    requires t in s.exec.queue && s.exec.queue[t] == TimeoutExpiry(h, fn) && h in s.timers.active
    ensures Timing(Fired(s, t, h, fn))
  { FireArmed(s, t, h, fn); FireTimer(s, t, h, fn); }

  lemma FireKeeps(s: State, t: nat, h: Handle, fn: Ref)
    requires Core(s)
    requires t in s.exec.queue && s.exec.queue[t] == TimeoutExpiry(h, fn) && h in s.timers.active
    ensures Core(Fired(s, t, h, fn))
  {
    var s1 := Fired(s, t, h, fn);
    hide *;
    Split(s);
    FirePool(s, t, h, fn);
    FireCtl(s, t, h, fn);
    JoinMachine(s1);
    FireHandles(s, t, h, fn);
    FireTiming(s, t, h, fn);
    Join(s1);
  }

  // --- PreYield ---

  predicate CanPark(s: State, co: Co) {
    co in s.lua.cos && s.lua.cos[co].st.Running? && !s.closed
  }

  lemma PreYieldMachine(s: State, co: Co, sleep: bool)
    requires Machine(s) && PendInv(s)
    requires CanPark(s, co)
    ensures Machine(SchedulerState.PreYield(s, co, sleep))
  {}

  lemma PreYieldPend(s: State, co: Co, sleep: bool)
    requires Handles(s) && PoolInv(s) && CtlInv(s)
    requires CanPark(s, co)
    ensures PendInv(SchedulerState.PreYield(s, co, sleep))
  {}

  lemma PreYieldCallers(s: State, co: Co, sleep: bool)
    requires Handles(s) && PoolInv(s) && CtlInv(s)
    requires CanPark(s, co)
    ensures ResumeInv(SchedulerState.PreYield(s, co, sleep)) && CallerInv(SchedulerState.PreYield(s, co, sleep))
  {}

  lemma PreYieldHandles(s: State, co: Co, sleep: bool)
    requires Handles(s) && PoolInv(s) && CtlInv(s)
    requires CanPark(s, co)
    ensures Handles(SchedulerState.PreYield(s, co, sleep))
  {
    PreYieldPend(s, co, sleep);
    PreYieldCallers(s, co, sleep);
    hide PendInv, ResumeInv, CallerInv;
  }

  lemma PreYieldTiming(s: State, co: Co, sleep: bool)
    requires Timing(s) && PendInv(s)
    requires CanPark(s, co)
    ensures Timing(SchedulerState.PreYield(s, co, sleep))
  {}

  lemma PreYieldKeeps(s: State, co: Co, sleep: bool)
    requires Core(s)
    requires CanPark(s, co)
    ensures Core(SchedulerState.PreYield(s, co, sleep))
  {
    var s1 := SchedulerState.PreYield(s, co, sleep);
    hide *;
    Split(s);
    PreYieldMachine(s, co, sleep);
    PreYieldHandles(s, co, sleep);
    PreYieldTiming(s, co, sleep);
    Join(s1);
  }

  // --- AddSleepTimer ---

  // The handle is pending, and no closure for it is left in the queue.
  predicate CanArm(s: State, h: Handle) {
    && h in s.pending && h in s.hist.issued && s.hist.issued[h].sleep && h < s.timers.next && 1 <= h
    && h !in s.timers.active
    && (h in s.timers.armed ==> s.timers.armed[h] !in s.exec.queue)
    && !s.closed
  }

  lemma ArmSleepMachine(s: State, h: Handle)
    requires Machine(s) && PendInv(s)
    requires CanArm(s, h)
    ensures Machine(SchedulerState.ArmSleep(s, h))
  {}

  lemma ArmSleepHandles(s: State, h: Handle)
    requires Handles(s) && PoolInv(s) && CtlInv(s)
    requires CanArm(s, h)
    ensures Handles(SchedulerState.ArmSleep(s, h))
  {}

  lemma ArmSleepArmed(s: State, h: Handle)
    requires Timing(s) && PendInv(s)
    requires CanArm(s, h)
    ensures ArmedInv(SchedulerState.ArmSleep(s, h))
  {}

  lemma ArmSleepTimer(s: State, h: Handle)
    requires Timing(s) && PendInv(s)
    requires CanArm(s, h)
    ensures TimerInv(SchedulerState.ArmSleep(s, h))
  {}

  lemma ArmSleepTiming(s: State, h: Handle)
    requires Timing(s) && PendInv(s)
    requires CanArm(s, h)
    ensures Timing(SchedulerState.ArmSleep(s, h))
  {
    ArmSleepArmed(s, h);
    ArmSleepTimer(s, h);
    hide ArmedInv, TimerInv;
  }

  lemma ArmSleepKeeps(s: State, h: Handle)
    requires Core(s)
    requires CanArm(s, h)
    ensures Core(SchedulerState.ArmSleep(s, h))
  {
    var s1 := SchedulerState.ArmSleep(s, h);
    hide *;
    Split(s);
    ArmSleepMachine(s, h);
    ArmSleepHandles(s, h);
    ArmSleepTiming(s, h);
    Join(s1);
  }

  // --- setTimeout ---

  lemma SetTimeoutArmed(s: State, fn: Ref)
    requires ArmedInv(s) && 1 <= s.timers.next
    ensures ArmedInv(TimeoutSet(s, fn))
  {}

  lemma SetTimeoutTimer(s: State, fn: Ref)
    requires TimerInv(s) && ArmedInv(s) && PendInv(s) && fn !in s.lua.registry
    ensures TimerInv(TimeoutSet(s, fn))
  {}

  lemma SetTimeoutMachine(s: State, fn: Ref)
    requires Machine(s) && PendInv(s)
    requires fn !in s.lua.registry && !s.closed
    ensures Machine(TimeoutSet(s, fn))
  {}

  lemma SetTimeoutHandles(s: State, fn: Ref)
    requires Handles(s) && PoolInv(s) && CtlInv(s)
    requires fn !in s.lua.registry && !s.closed
    ensures Handles(TimeoutSet(s, fn))
  {}

  lemma SetTimeoutTiming(s: State, fn: Ref)
    requires Timing(s) && PendInv(s)
    requires fn !in s.lua.registry && !s.closed
    ensures Timing(TimeoutSet(s, fn))
  { SetTimeoutArmed(s, fn); SetTimeoutTimer(s, fn); }

  lemma SetTimeoutKeeps(s: State, fn: Ref)
    requires Core(s)
    requires fn !in s.lua.registry && !s.closed
    ensures Core(TimeoutSet(s, fn))
  {
    var s1 := TimeoutSet(s, fn);
    hide *;
    Split(s);
    SetTimeoutMachine(s, fn);
    SetTimeoutHandles(s, fn);
    SetTimeoutTiming(s, fn);
    Join(s1);
  }

  // --- CancelTimer ---

  lemma CancelTimerLuaIs(s: State, h: Handle)
    requires TimerInv(s)
    ensures var s1 := SchedulerState.CancelTimer(s, h);
            if h in s.timers.active && s.timers.active[h].SetTimeout? then
              s1.lua == s.lua.(registry := s.lua.registry - {s.timers.active[h].fn},
                               freed := s.lua.freed + multiset{TimerFn(h)})
            else s1.lua == s.lua
  {}

  lemma CancelTimerArmed(s: State, h: Handle)
    requires ArmedInv(s)
    ensures ArmedInv(SchedulerState.CancelTimer(s, h))
  {}

  lemma CancelTimerTimer(s: State, h: Handle)
    requires TimerInv(s)
    ensures TimerInv(SchedulerState.CancelTimer(s, h))
  {
    if h in s.timers.active && s.timers.active[h].SetTimeout? {
      CancelTimeout(s, h, s.timers.active[h].fn);
    }
  }

  lemma CancelTimeout(s: State, h: Handle, fn: Ref)
    requires TimerInv(s) && h in s.timers.active && s.timers.active[h] == ActiveTimer.SetTimeout(fn)
    ensures TimerInv(SchedulerState.CancelTimer(s, h))
  {
    var s1 := SchedulerState.CancelTimer(s, h);
    assert s1.lua.freed == s.lua.freed + multiset{TimerFn(h)};
    assert s1.lua.registry == s.lua.registry - {fn};
  }

  lemma CancelTimerMachine(s: State, h: Handle)
    requires Machine(s) && TimerInv(s)
    ensures Machine(SchedulerState.CancelTimer(s, h))
  { CancelTimerLuaIs(s, h); }

  lemma CancelTimerHandles(s: State, h: Handle)
    requires Handles(s) && PoolInv(s) && CtlInv(s)
    ensures Handles(SchedulerState.CancelTimer(s, h))
  {}

  lemma CancelTimerTiming(s: State, h: Handle)
    requires Timing(s)
    ensures Timing(SchedulerState.CancelTimer(s, h))
  { CancelTimerArmed(s, h); CancelTimerTimer(s, h); }

  lemma CancelTimerKeeps(s: State, h: Handle)
    requires Core(s)
    ensures Core(SchedulerState.CancelTimer(s, h))
  {
    var s1 := SchedulerState.CancelTimer(s, h);
    hide *;
    Split(s);
    CancelTimerMachine(s, h);
    CancelTimerHandles(s, h);
    CancelTimerTiming(s, h);
    Join(s1);
  }

  // --- coroutine.create ---

  lemma CreatePool(s: State, co: Co)
    requires Machine(s) && PendInv(s)
    requires co !in s.lua.cos
    ensures IdleInv(Created(s, co)) && ActiveInv(Created(s, co)) && HomeInv(Created(s, co))
  {}

  lemma CreateCtl(s: State, co: Co)
    requires Machine(s) && PendInv(s)
    requires co !in s.lua.cos
    ensures CtlInv(Created(s, co)) && KeyInv(Created(s, co)) && ClosedInv(Created(s, co))
  {}

  lemma CreateMachine(s: State, co: Co)
    requires Machine(s) && PendInv(s)
    requires co !in s.lua.cos
    ensures Machine(Created(s, co))
  {
    CreatePool(s, co);
    CreateCtl(s, co);
    hide IdleInv, ActiveInv, HomeInv, CtlInv, KeyInv, ClosedInv;
  }

  lemma CreateHandles(s: State, co: Co)
    requires Handles(s) && PoolInv(s) && CtlInv(s)
    requires co !in s.lua.cos
    ensures Handles(Created(s, co))
  {}

  lemma CreateTiming(s: State, co: Co)
    requires Timing(s) && PendInv(s)
    requires co !in s.lua.cos
    ensures Timing(Created(s, co))
  {}

  lemma CreateKeeps(s: State, co: Co)
    requires Core(s)
    requires co !in s.lua.cos
    ensures Core(Created(s, co))
  {
    var s1 := Created(s, co);
    hide *;
    Split(s);
    CreateMachine(s, co);
    CreateHandles(s, co);
    CreateTiming(s, co);
    Join(s1);
  }

  // --- coroutine.close ---

  lemma ClosePool(s: State, co: Co)
    requires Machine(s) && PendInv(s)
    requires IsScriptCo(s, co) && !s.lua.cos[co].st.Running?
    ensures IdleInv(s.(lua := SetSt(s.lua, co, Dead))) && ActiveInv(s.(lua := SetSt(s.lua, co, Dead)))
    ensures HomeInv(s.(lua := SetSt(s.lua, co, Dead)))
  {}

  lemma CloseCtl(s: State, co: Co)
    requires Machine(s) && PendInv(s)
    requires IsScriptCo(s, co) && !s.lua.cos[co].st.Running?
    ensures CtlInv(s.(lua := SetSt(s.lua, co, Dead))) && KeyInv(s.(lua := SetSt(s.lua, co, Dead)))
    ensures ClosedInv(s.(lua := SetSt(s.lua, co, Dead)))
  {}

  lemma CloseMachine(s: State, co: Co)
    requires Machine(s) && PendInv(s)
    requires IsScriptCo(s, co) && !s.lua.cos[co].st.Running?
    ensures Machine(s.(lua := SetSt(s.lua, co, Dead)))
  {
    ClosePool(s, co);
    CloseCtl(s, co);
    hide IdleInv, ActiveInv, HomeInv, CtlInv, KeyInv, ClosedInv;
  }

  lemma CloseHandles(s: State, co: Co)
    requires Handles(s) && PoolInv(s) && CtlInv(s)
    requires IsScriptCo(s, co) && !s.lua.cos[co].st.Running?
    ensures Handles(s.(lua := SetSt(s.lua, co, Dead)))
  {}

  lemma CloseTiming(s: State, co: Co)
    requires Timing(s) && PendInv(s)
    requires IsScriptCo(s, co) && !s.lua.cos[co].st.Running?
    ensures Timing(s.(lua := SetSt(s.lua, co, Dead)))
  {}

  lemma CloseKeeps(s: State, co: Co)
    requires Core(s)
    requires IsScriptCo(s, co) && !s.lua.cos[co].st.Running?
    ensures Core(s.(lua := SetSt(s.lua, co, Dead)))
  {
    var s1 := s.(lua := SetSt(s.lua, co, Dead));
    hide *;
    Split(s);
    CloseMachine(s, co);
    CloseHandles(s, co);
    CloseTiming(s, co);
    Join(s1);
  }

  // --- the collector ---

  lemma CollectPool(s: State, co: Co)
    requires Machine(s) && PendInv(s)
    requires IsScriptCo(s, co) && !s.lua.cos[co].st.Running? && co !in s.pins.Values
    ensures IdleInv(s.(lua := s.lua.(cos := s.lua.cos - {co})))
    ensures ActiveInv(s.(lua := s.lua.(cos := s.lua.cos - {co})))
    ensures HomeInv(s.(lua := s.lua.(cos := s.lua.cos - {co})))
  {}

  lemma CollectCtl(s: State, co: Co)
    requires Machine(s) && PendInv(s)
    requires IsScriptCo(s, co) && !s.lua.cos[co].st.Running? && co !in s.pins.Values
    ensures CtlInv(s.(lua := s.lua.(cos := s.lua.cos - {co})))
    ensures KeyInv(s.(lua := s.lua.(cos := s.lua.cos - {co})))
    ensures ClosedInv(s.(lua := s.lua.(cos := s.lua.cos - {co})))
  {}

  lemma CollectMachine(s: State, co: Co)
    requires Machine(s) && PendInv(s)
    requires IsScriptCo(s, co) && !s.lua.cos[co].st.Running? && co !in s.pins.Values
    ensures Machine(s.(lua := s.lua.(cos := s.lua.cos - {co})))
  {
    CollectPool(s, co);
    CollectCtl(s, co);
    hide IdleInv, ActiveInv, HomeInv, CtlInv, KeyInv, ClosedInv;
  }

  lemma CollectHandles(s: State, co: Co)
    requires Handles(s) && PoolInv(s) && CtlInv(s)
    requires IsScriptCo(s, co) && !s.lua.cos[co].st.Running? && co !in s.pins.Values
    ensures Handles(s.(lua := s.lua.(cos := s.lua.cos - {co})))
  {}

  lemma CollectTiming(s: State, co: Co)
    requires Timing(s) && PendInv(s)
    requires IsScriptCo(s, co) && !s.lua.cos[co].st.Running? && co !in s.pins.Values
    ensures Timing(s.(lua := s.lua.(cos := s.lua.cos - {co})))
  {}

  lemma CollectKeeps(s: State, co: Co)
    requires Core(s)
    requires IsScriptCo(s, co) && !s.lua.cos[co].st.Running? && co !in s.pins.Values
    ensures Core(s.(lua := s.lua.(cos := s.lua.cos - {co})))
  {
    var s1 := s.(lua := s.lua.(cos := s.lua.cos - {co}));
    hide *;
    Split(s);
    CollectMachine(s, co);
    CollectHandles(s, co);
    CollectTiming(s, co);
    Join(s1);
  }

  // --- coroutine.resume by a script ---

  lemma ByScriptPool(s: State, co: Co)
    requires PoolInv(s)
    requires IsScriptCo(s, co) && !s.lua.cos[co].st.Running? && !s.closed
    ensures IdleInv(PushFrame(s, co, After.ByScript)) && ActiveInv(PushFrame(s, co, After.ByScript))
    ensures HomeInv(PushFrame(s, co, After.ByScript))
  {}

  lemma ByScriptCtl(s: State, co: Co)
    requires Machine(s)
    requires IsScriptCo(s, co) && !s.lua.cos[co].st.Running? && !s.closed
    ensures CtlInv(PushFrame(s, co, After.ByScript)) && KeyInv(PushFrame(s, co, After.ByScript))
    ensures ClosedInv(PushFrame(s, co, After.ByScript))
  {}

  lemma ByScriptHandles(s: State, co: Co)
    requires Handles(s) && PoolInv(s) && CtlInv(s)
    requires IsScriptCo(s, co) && !s.lua.cos[co].st.Running? && !s.closed
    ensures Handles(PushFrame(s, co, After.ByScript))
  {}

  lemma ByScriptTiming(s: State, co: Co)
    requires Timing(s) && PendInv(s)
    requires IsScriptCo(s, co) && !s.lua.cos[co].st.Running? && !s.closed
    ensures Timing(PushFrame(s, co, After.ByScript))
  {}

  lemma ByScriptKeeps(s: State, co: Co)
    requires Core(s)
    requires IsScriptCo(s, co) && !s.lua.cos[co].st.Running? && !s.closed
    ensures Core(PushFrame(s, co, After.ByScript))
  {
    var s1 := PushFrame(s, co, After.ByScript);
    hide *;
    Split(s);
    ByScriptPool(s, co);
    ByScriptCtl(s, co);
    JoinMachine(s1);
    ByScriptHandles(s, co);
    ByScriptTiming(s, co);
    Join(s1);
  }

  // --- CleanupStalePendings ---

  lemma PurgeMachine(s: State, co: Co)
    requires Machine(s) && PendInv(s)
    ensures Machine(SchedulerState.Purge(s, co))
  {}

  lemma PurgeHandles(s: State, co: Co)
    requires Handles(s) && PoolInv(s) && CtlInv(s)
    ensures Handles(SchedulerState.Purge(s, co))
  {}

  lemma PurgeTiming(s: State, co: Co)
    requires Timing(s) && PendInv(s)
    ensures Timing(SchedulerState.Purge(s, co))
  {}

  lemma PurgeKeeps(s: State, co: Co)
    requires Core(s)
    ensures Core(SchedulerState.Purge(s, co))
  {
    var s1 := SchedulerState.Purge(s, co);
    hide *;
    Split(s);
    PurgeMachine(s, co);
    PurgeHandles(s, co);
    PurgeTiming(s, co);
    Join(s1);
  }

  // --- AcquireCoroutine and lua_resume ---

  predicate CanEnter(s: State, spare: Slot, after: After) {
    && SpareSlot(s, spare) && !s.closed && FirstRun(after)
    && (after.AfterRequire? ==> AsyncHandle(s, after.caller))
  }

  lemma EnterIdle(s: State, spare: Slot, after: After)
    requires PoolInv(s)
    requires CanEnter(s, spare, after)
    ensures IdleInv(SchedulerState.Enter(s, spare, after)) && HomeInv(SchedulerState.Enter(s, spare, after))
  {
    EnterOnlyIdle(s, spare, after);
    EnterHome(s, spare, after);
    hide IdleInv, ActiveInv, HomeInv, SchedulerState.Enter;
  }

  lemma EnterOnlyIdle(s: State, spare: Slot, after: After)
    requires PoolInv(s) && CanEnter(s, spare, after)
    ensures IdleInv(SchedulerState.Enter(s, spare, after))
  {
    hide HomeInv, InIdle;
  }

  lemma EnterHome(s: State, spare: Slot, after: After)
    requires PoolInv(s) && CanEnter(s, spare, after)
    ensures HomeInv(SchedulerState.Enter(s, spare, after))
  {
    hide InIdle;
  }

  lemma EnterActive(s: State, spare: Slot, after: After)
    requires PoolInv(s)
    requires CanEnter(s, spare, after)
    ensures ActiveInv(SchedulerState.Enter(s, spare, after))
  {
    if s.pool.idle != [] { IdleLast(s.pool.idle); }
  }

  lemma EnterCtl(s: State, spare: Slot, after: After)
    requires IdleInv(s) && ActiveInv(s) && CtlInv(s) && KeyInv(s)
    requires CanEnter(s, spare, after)
    ensures CtlInv(SchedulerState.Enter(s, spare, after))
  {}

  lemma EnterKey(s: State, spare: Slot, after: After)
    requires IdleInv(s) && KeyInv(s) && ClosedInv(s)
    requires CanEnter(s, spare, after)
    ensures KeyInv(SchedulerState.Enter(s, spare, after)) && ClosedInv(SchedulerState.Enter(s, spare, after))
  {}

  lemma EnterPend(s: State, spare: Slot, after: After)
    requires Handles(s) && PoolInv(s) && CtlInv(s)
    requires CanEnter(s, spare, after)
    ensures PendInv(SchedulerState.Enter(s, spare, after))
  {}

  lemma EnterCallers(s: State, spare: Slot, after: After)
    requires Handles(s) && PoolInv(s) && CtlInv(s)
    requires CanEnter(s, spare, after)
    ensures ResumeInv(SchedulerState.Enter(s, spare, after)) && CallerInv(SchedulerState.Enter(s, spare, after))
  {}

  lemma EnterHandles(s: State, spare: Slot, after: After)
    requires Handles(s) && PoolInv(s) && CtlInv(s)
    requires CanEnter(s, spare, after)
    ensures Handles(SchedulerState.Enter(s, spare, after))
  {
    EnterPend(s, spare, after);
    EnterCallers(s, spare, after);
    hide PendInv, ResumeInv, CallerInv;
  }

  lemma EnterArmed(s: State, spare: Slot, after: After)
    requires ArmedInv(s)
    ensures ArmedInv(SchedulerState.Enter(s, spare, after))
  {}

  lemma EnterTimer(s: State, spare: Slot, after: After)
    requires TimerInv(s) && CanEnter(s, spare, after)
    ensures TimerInv(SchedulerState.Enter(s, spare, after))
  {}

  lemma EnterTiming(s: State, spare: Slot, after: After)
    requires Timing(s) && PendInv(s)
    requires CanEnter(s, spare, after)
    ensures Timing(SchedulerState.Enter(s, spare, after))
  {
    EnterArmed(s, spare, after);
    EnterTimer(s, spare, after);
    hide ArmedInv, TimerInv;
  }

  lemma EnterKeeps(s: State, spare: Slot, after: After)
    requires Core(s)
    requires CanEnter(s, spare, after)
    ensures Core(SchedulerState.Enter(s, spare, after))
  {
    var s1 := SchedulerState.Enter(s, spare, after);
    hide *;
    Split(s);
    EnterIdle(s, spare, after);
    EnterActive(s, spare, after);
    EnterCtl(s, spare, after);
    EnterKey(s, spare, after);
    JoinMachine(s1);
    EnterHandles(s, spare, after);
    EnterTiming(s, spare, after);
    Join(s1);
  }

  // --- a chunk that is loaded only ---

  // LoadOnly takes a coroutine and puts it back where it was.
  function Bumped(s: State, spare: Slot): State {
    s.(lua := LuaAcquire(s.lua, s.pool, spare),
       pool := if s.pool.idle == [] then s.pool.(idle := [spare]) else s.pool)
  }

  lemma LoadOnlyIsBumped(s: State, spare: Slot)
    requires IdleInv(s) && ActiveInv(s) && SpareSlot(s, spare)
    ensures LoadOnly(s, spare) == Bumped(s, spare)
  {
    var co := AcquiredCo(s.pool, spare);
    assert co !in s.pool.active;
    var s1 := Acquire(s, spare);
    assert s1.pool.active - {co} == s.pool.active;
    assert SetSt(s1.lua, co, Fresh) == s1.lua;
    assert s1.pool.idle + [Slot(co, s1.pool.active[co])] == Bumped(s, spare).pool.idle;
  }

  lemma LoadOnlyKeeps(s: State, spare: Slot)
    requires Core(s) && SpareSlot(s, spare) && !s.closed
    ensures Core(LoadOnly(s, spare))
  {
    hide *;
    Split(s);
    LoadOnlyIsBumped(s, spare);
    BumpKeeps(s, spare);
  }

  lemma BumpIdle(s: State, spare: Slot)
    requires PoolInv(s)
    requires SpareSlot(s, spare) && !s.closed
    ensures IdleInv(Bumped(s, spare)) && HomeInv(Bumped(s, spare))
  {}

  lemma BumpActive(s: State, spare: Slot)
    requires PoolInv(s)
    requires SpareSlot(s, spare) && !s.closed
    ensures ActiveInv(Bumped(s, spare))
  {
    if s.pool.idle == [] { IdleAppend([], spare); assert [] + [spare] == [spare]; }
  }

  lemma BumpCtl(s: State, spare: Slot)
    requires Machine(s)
    requires SpareSlot(s, spare) && !s.closed
    ensures CtlInv(Bumped(s, spare)) && KeyInv(Bumped(s, spare)) && ClosedInv(Bumped(s, spare))
  {}

  lemma BumpHandles(s: State, spare: Slot)
    requires Handles(s) && PoolInv(s) && CtlInv(s)
    requires SpareSlot(s, spare) && !s.closed
    ensures Handles(Bumped(s, spare))
  {}

  lemma BumpTiming(s: State, spare: Slot)
    requires Timing(s) && PendInv(s)
    requires SpareSlot(s, spare) && !s.closed
    ensures Timing(Bumped(s, spare))
  {}

  lemma BumpKeeps(s: State, spare: Slot)
    requires Core(s)
    requires SpareSlot(s, spare) && !s.closed
    ensures Core(Bumped(s, spare))
  {
    var s1 := Bumped(s, spare);
    hide *;
    Split(s);
    BumpIdle(s, spare);
    BumpActive(s, spare);
    BumpCtl(s, spare);
    JoinMachine(s1);
    BumpHandles(s, spare);
    BumpTiming(s, spare);
    Join(s1);
  }

  // --- DoResume finds its coroutine suspended ---

  predicate CanResume(s: State, h: Handle) {
    h in s.pending && SuspendedAt(s.lua, s.pending[h]) && h !in s.timers.active && !s.closed
  }

  lemma ResumedPool(s: State, h: Handle, args: seq<Value>)
    requires PoolInv(s) && PendInv(s)
    requires CanResume(s, h)
    ensures IdleInv(DoResume(s, h, args)) && ActiveInv(DoResume(s, h, args)) && HomeInv(DoResume(s, h, args))
  {}

  lemma ResumedCtl(s: State, h: Handle, args: seq<Value>)
    requires CtlInv(s)
    requires CanResume(s, h)
    ensures CtlInv(DoResume(s, h, args))
  {}

  lemma ResumedKey(s: State, h: Handle, args: seq<Value>)
    requires Machine(s) && PendInv(s)
    requires CanResume(s, h)
    ensures KeyInv(DoResume(s, h, args)) && ClosedInv(DoResume(s, h, args))
  {}

  lemma ResumedPend(s: State, h: Handle, args: seq<Value>)
    requires Handles(s) && PoolInv(s) && CtlInv(s)
    requires CanResume(s, h)
    ensures PendInv(DoResume(s, h, args))
  {}

  lemma ResumedCallers(s: State, h: Handle, args: seq<Value>)
    requires Handles(s) && PoolInv(s) && CtlInv(s)
    requires CanResume(s, h)
    ensures CallerInv(DoResume(s, h, args))
  {}

  lemma ResumedLog(s: State, h: Handle, args: seq<Value>)
    requires PendInv(s) && ResumeInv(s)
    requires CanResume(s, h)
    ensures ResumeInv(DoResume(s, h, args))
  {}

  lemma ResumedHandles(s: State, h: Handle, args: seq<Value>)
    requires Handles(s) && PoolInv(s) && CtlInv(s)
    requires CanResume(s, h)
    ensures Handles(DoResume(s, h, args))
  {
    ResumedPend(s, h, args);
    ResumedCallers(s, h, args);
    ResumedLog(s, h, args);
    hide PendInv, ResumeInv, CallerInv;
  }

  lemma ResumedTiming(s: State, h: Handle, args: seq<Value>)
    requires Timing(s) && PendInv(s)
    requires CanResume(s, h)
    ensures Timing(DoResume(s, h, args))
  {}

  lemma ResumedKeeps(s: State, h: Handle, args: seq<Value>)
    requires Core(s)
    requires CanResume(s, h)
    ensures Core(DoResume(s, h, args))
  {
    var s1 := DoResume(s, h, args);
    hide *;
    Split(s);
    ResumedPool(s, h, args);
    ResumedCtl(s, h, args);
    ResumedKey(s, h, args);
    JoinMachine(s1);
    ResumedHandles(s, h, args);
    ResumedTiming(s, h, args);
    Join(s1);
  }

  // --- DoResume drops the handle ---

  lemma ForgetMachine(s: State, h: Handle)
    requires Machine(s) && PendInv(s)
    requires h in s.pending && h !in s.timers.active
    ensures Machine(s.(pins := s.pins - {h}, pending := s.pending - {h}))
  {}

  lemma ForgetHandles(s: State, h: Handle)
    requires Handles(s) && PoolInv(s) && CtlInv(s)
    requires h in s.pending && h !in s.timers.active
    ensures Handles(s.(pins := s.pins - {h}, pending := s.pending - {h}))
  {}

  lemma ForgetTiming(s: State, h: Handle)
    requires Timing(s) && PendInv(s)
    requires h in s.pending && h !in s.timers.active
    ensures Timing(s.(pins := s.pins - {h}, pending := s.pending - {h}))
  {}

  lemma ForgetKeeps(s: State, h: Handle)
    requires Core(s)
    requires h in s.pending && h !in s.timers.active
    ensures Core(s.(pins := s.pins - {h}, pending := s.pending - {h}))
  {
    var s1 := s.(pins := s.pins - {h}, pending := s.pending - {h});
    hide *;
    Split(s);
    ForgetMachine(s, h);
    ForgetHandles(s, h);
    ForgetTiming(s, h);
    Join(s1);
  }

  // --- CancelCall, apart from the purge ---

  function Cancelled1(s: State, co: Co): State {
    s.(completions := s.completions - {co}, lua := SetSt(s.lua, co, Fresh), pool := PoolRelease(s.pool, co))
  }

  predicate CanCancel(s: State, co: Co) {
    co in s.completions && SuspendedAt(s.lua, co)
  }

  lemma CancelPool(s: State, co: Co)
    requires PoolInv(s) && KeyInv(s)
    requires CanCancel(s, co)
    ensures IdleInv(Cancelled1(s, co)) && ActiveInv(Cancelled1(s, co)) && HomeInv(Cancelled1(s, co))
  {
    IdleAppend(s.pool.idle, Slot(co, s.pool.active[co]));
  }

  lemma CancelCtl(s: State, co: Co)
    requires Machine(s)
    requires CanCancel(s, co)
    ensures CtlInv(Cancelled1(s, co)) && KeyInv(Cancelled1(s, co)) && ClosedInv(Cancelled1(s, co))
  {}

  lemma CancelHandles(s: State, co: Co)
    requires Handles(s) && KeyInv(s) && ActiveInv(s)
    requires CanCancel(s, co)
    ensures Handles(Cancelled1(s, co))
  {}

  lemma CancelTiming(s: State, co: Co)
    requires Timing(s)
    requires CanCancel(s, co)
    ensures Timing(Cancelled1(s, co))
  {}

  lemma CancelKeeps(s: State, co: Co)
    requires Core(s)
    requires CanCancel(s, co)
    ensures Core(Cancelled1(s, co))
  {
    var s1 := Cancelled1(s, co);
    hide *;
    Split(s);
    CancelPool(s, co);
    CancelCtl(s, co);
    JoinMachine(s1);
    CancelHandles(s, co);
    CancelTiming(s, co);
    Join(s1);
  }

  // --- a pool coroutine ends and is released ---

  function Ended(s: State, co: Co): State
    requires ScriptOnTop(s)
  {
    s.(ctl := s.ctl[..|s.ctl| - 1], completions := s.completions - {co},
       lua := SetSt(s.lua, co, Fresh), pool := PoolRelease(s.pool, co))
  }

  predicate CanEnd(s: State, co: Co) {
    ScriptOnTop(s) && Top(s) == co && co in s.lua.cos && s.lua.cos[co].kind.Pooled?
  }

  lemma EndPool(s: State, co: Co)
    requires PoolInv(s) && CtlInv(s)
    requires CanEnd(s, co)
    ensures IdleInv(Ended(s, co)) && HomeInv(Ended(s, co))
  {}

  lemma EndActive(s: State, co: Co)
    requires PoolInv(s) && CtlInv(s)
    requires CanEnd(s, co)
    ensures ActiveInv(Ended(s, co))
  {
    IdleAppend(s.pool.idle, Slot(co, s.pool.active[co]));
  }

  lemma EndCtl(s: State, co: Co)
    requires Machine(s)
    requires CanEnd(s, co)
    ensures CtlInv(Ended(s, co)) && KeyInv(Ended(s, co)) && ClosedInv(Ended(s, co))
  {}

  lemma EndHandles(s: State, co: Co)
    requires Handles(s)
    requires CanEnd(s, co)
    ensures Handles(Ended(s, co))
  {}

  lemma EndTiming(s: State, co: Co)
    requires Timing(s)
    requires CanEnd(s, co)
    ensures Timing(Ended(s, co))
  {}

  lemma EndKeeps(s: State, co: Co)
    requires Core(s)
    requires CanEnd(s, co)
    ensures Core(Ended(s, co))
  {
    var s1 := Ended(s, co);
    hide *;
    Split(s);
    EndPool(s, co);
    EndActive(s, co);
    EndCtl(s, co);
    JoinMachine(s1);
    EndHandles(s, co);
    EndTiming(s, co);
    Join(s1);
  }

  // --- a coroutine yields, or a script coroutine ends ---

  predicate CanPop(s: State, out: Outcome) {
    ScriptOnTop(s) && (out.Yielded? || IsScriptCo(s, Top(s)))
  }

  lemma PopPool(s: State, out: Outcome)
    requires PoolInv(s) && CtlInv(s)
    requires CanPop(s, out)
    ensures IdleInv(PopFrame(s, out)) && ActiveInv(PopFrame(s, out)) && HomeInv(PopFrame(s, out))
  {}

  lemma PopCtl(s: State, out: Outcome)
    requires Machine(s)
    requires CanPop(s, out)
    ensures CtlInv(PopFrame(s, out)) && KeyInv(PopFrame(s, out)) && ClosedInv(PopFrame(s, out))
  {}

  lemma PopHandles(s: State, out: Outcome)
    requires Handles(s)
    requires CanPop(s, out)
    ensures Handles(PopFrame(s, out))
  {}

  lemma PopTiming(s: State, out: Outcome)
    requires Timing(s)
    requires CanPop(s, out)
    ensures Timing(PopFrame(s, out))
  {}

  lemma PopKeeps(s: State, out: Outcome)
    requires Core(s)
    requires CanPop(s, out)
    ensures Core(PopFrame(s, out))
  {
    var s1 := PopFrame(s, out);
    hide *;
    Split(s);
    PopPool(s, out);
    PopCtl(s, out);
    JoinMachine(s1);
    PopHandles(s, out);
    PopTiming(s, out);
    Join(s1);
  }

  // --- a handler is stored ---

  predicate CanPut(s: State, co: Co, hd: Handler) {
    && SuspendedAt(s.lua, co) && s.lua.cos[co].kind.Pooled? && !s.closed
    && (hd.RequireDone? ==> AsyncHandle(s, hd.caller))
  }

  lemma PutMachine(s: State, co: Co, hd: Handler)
    requires Machine(s)
    requires CanPut(s, co, hd)
    ensures Machine(PutHandler(s, co, hd))
  {}

  lemma PutHandles(s: State, co: Co, hd: Handler)
    requires Handles(s)
    requires CanPut(s, co, hd)
    ensures Handles(PutHandler(s, co, hd))
  {}

  lemma PutTiming(s: State, co: Co, hd: Handler)
    requires Timing(s)
    requires CanPut(s, co, hd)
    ensures Timing(PutHandler(s, co, hd))
  {}

  lemma PutKeeps(s: State, co: Co, hd: Handler)
    requires Core(s)
    requires CanPut(s, co, hd)
    ensures Core(PutHandler(s, co, hd))
  {
    var s1 := PutHandler(s, co, hd);
    hide *;
    Split(s);
    PutMachine(s, co, hd);
    PutHandles(s, co, hd);
    PutTiming(s, co, hd);
    Join(s1);
  }

  // --- a handler is about to run ---

  lemma PushMachine(s: State, hd: Handler, r: Result)
    requires Machine(s)
    requires hd.RequireDone? ==> AsyncHandle(s, hd.caller)
    ensures Machine(PushDeliver(s, hd, r))
  {}

  lemma PushHandles(s: State, hd: Handler, r: Result)
    requires Handles(s)
    requires hd.RequireDone? ==> AsyncHandle(s, hd.caller)
    ensures Handles(PushDeliver(s, hd, r))
  {}

  lemma PushTiming(s: State, hd: Handler, r: Result)
    requires Timing(s)
    requires hd.RequireDone? ==> AsyncHandle(s, hd.caller)
    ensures Timing(PushDeliver(s, hd, r))
  {}

  lemma PushKeeps(s: State, hd: Handler, r: Result)
    requires Core(s)
    requires hd.RequireDone? ==> AsyncHandle(s, hd.caller)
    ensures Core(PushDeliver(s, hd, r))
  {
    var s1 := PushDeliver(s, hd, r);
    hide *;
    Split(s);
    PushMachine(s, hd, r);
    PushHandles(s, hd, r);
    PushTiming(s, hd, r);
    Join(s1);
  }

  // --- a handler has run ---

  lemma DropPool(s: State)
    requires Machine(s)
    requires s.ctl != [] && s.ctl[|s.ctl| - 1].Deliver?
    ensures IdleInv(s.(ctl := s.ctl[..|s.ctl| - 1])) && ActiveInv(s.(ctl := s.ctl[..|s.ctl| - 1]))
    ensures HomeInv(s.(ctl := s.ctl[..|s.ctl| - 1]))
  {}

  lemma DropCtl(s: State)
    requires Machine(s)
    requires s.ctl != [] && s.ctl[|s.ctl| - 1].Deliver?
    ensures CtlInv(s.(ctl := s.ctl[..|s.ctl| - 1])) && KeyInv(s.(ctl := s.ctl[..|s.ctl| - 1]))
    ensures ClosedInv(s.(ctl := s.ctl[..|s.ctl| - 1]))
  {}

  lemma DropMachine(s: State)
    requires Machine(s)
    requires s.ctl != [] && s.ctl[|s.ctl| - 1].Deliver?
    ensures Machine(s.(ctl := s.ctl[..|s.ctl| - 1]))
  {
    DropPool(s);
    DropCtl(s);
    hide IdleInv, ActiveInv, HomeInv, CtlInv, KeyInv, ClosedInv;
  }

  lemma DropHandles(s: State)
    requires Handles(s)
    requires s.ctl != [] && s.ctl[|s.ctl| - 1].Deliver?
    ensures Handles(s.(ctl := s.ctl[..|s.ctl| - 1]))
  {}

  lemma DropTiming(s: State)
    requires Timing(s)
    requires s.ctl != [] && s.ctl[|s.ctl| - 1].Deliver?
    ensures Timing(s.(ctl := s.ctl[..|s.ctl| - 1]))
  {}

  lemma DropKeeps(s: State)
    requires Core(s)
    requires s.ctl != [] && s.ctl[|s.ctl| - 1].Deliver?
    ensures Core(s.(ctl := s.ctl[..|s.ctl| - 1]))
  {
    var s1 := s.(ctl := s.ctl[..|s.ctl| - 1]);
    hide *;
    Split(s);
    DropMachine(s);
    DropHandles(s);
    DropTiming(s);
    Join(s1);
  }

  // --- the interrupt pass ---

  predicate Orders(s: State, a: seq<Co>, b: seq<Co>) {
    s.ctl == [] && Enumerates(a, s.pool.active.Keys) && Enumerates(b, s.completions.Keys)
  }

  lemma PassIdle(s: State, a: seq<Co>, b: seq<Co>)
    requires PoolInv(s)
    requires Orders(s, a, b)
    ensures IdleInv(RunInterruptPass(s, a, b))
  {
    hide InterruptedItems, PlacesAfterSwap, HomeInv, InIdle;
  }

  lemma PassHome(s: State, a: seq<Co>, b: seq<Co>)
    requires PoolInv(s) && TimerInv(s)
    requires Orders(s, a, b)
    ensures HomeInv(RunInterruptPass(s, a, b))
  {}

  lemma PassActive(s: State, a: seq<Co>, b: seq<Co>)
    requires PoolInv(s)
    requires Orders(s, a, b)
    ensures ActiveInv(RunInterruptPass(s, a, b))
  {
    if !s.shuttingDown {
      var s1 := RunInterruptPass(s, a, b);
      forall co | co in s1.lua.cos && s1.lua.cos[co].kind.Pooled?
        ensures s1.lua.cos[co].st.Fresh? && InIdle(s1.pool.idle, co)
      {
        if InIdle(s.pool.idle, co) {
          var i :| 0 <= i < |s.pool.idle| && s.pool.idle[i].co == co;
          assert s1.pool.idle[i].co == co;
        } else {
          var i :| 0 <= i < |a| && a[i] == co;
          assert s1.pool.idle[|s.pool.idle| + i].co == co;
        }
      }
    }
  }

  lemma PassCtl(s: State, a: seq<Co>, b: seq<Co>)
    requires Machine(s)
    requires Orders(s, a, b)
    ensures CtlInv(RunInterruptPass(s, a, b)) && KeyInv(RunInterruptPass(s, a, b))
    ensures ClosedInv(RunInterruptPass(s, a, b))
  {}

  lemma PassHandles(s: State, a: seq<Co>, b: seq<Co>)
    requires Handles(s)
    requires Orders(s, a, b)
    ensures Handles(RunInterruptPass(s, a, b))
  {}

  lemma PassTiming(s: State, a: seq<Co>, b: seq<Co>)
    requires Timing(s)
    requires Orders(s, a, b)
    ensures Timing(RunInterruptPass(s, a, b))
  {}

  lemma PassKeeps(s: State, a: seq<Co>, b: seq<Co>)
    requires Core(s)
    requires Orders(s, a, b)
    ensures Core(RunInterruptPass(s, a, b))
  {
    var s1 := RunInterruptPass(s, a, b);
    hide *;
    Split(s);
    PassIdle(s, a, b);
    PassHome(s, a, b);
    PassActive(s, a, b);
    PassCtl(s, a, b);
    JoinMachine(s1);
    PassHandles(s, a, b);
    PassTiming(s, a, b);
    Join(s1);
  }

  // --- Shutdown ---

  lemma DownPool(s: State, order: seq<Co>)
    requires PoolInv(s) && TimerInv(s) && ClosedInv(s)
    requires s.ctl == [] && Enumerates(order, s.completions.Keys)
    ensures IdleInv(Shutdown(s, order)) && ActiveInv(Shutdown(s, order)) && HomeInv(Shutdown(s, order))
  {}

  lemma DownCtl(s: State, order: seq<Co>)
    requires Machine(s)
    requires s.ctl == [] && Enumerates(order, s.completions.Keys)
    ensures CtlInv(Shutdown(s, order)) && KeyInv(Shutdown(s, order)) && ClosedInv(Shutdown(s, order))
  {}

  lemma DownHandles(s: State, order: seq<Co>)
    requires Handles(s)
    requires s.ctl == [] && Enumerates(order, s.completions.Keys)
    ensures Handles(Shutdown(s, order))
  {}

  lemma DownTiming(s: State, order: seq<Co>)
    requires Timing(s)
    requires s.ctl == [] && Enumerates(order, s.completions.Keys)
    ensures Timing(Shutdown(s, order))
  {
    DownArmed(s, order);
    DownTimer(s, order);
    hide ArmedInv, TimerInv, Shutdown;
  }

  lemma DownArmed(s: State, order: seq<Co>)
    requires ArmedInv(s) && Enumerates(order, s.completions.Keys)
    ensures ArmedInv(Shutdown(s, order))
  {
    hide ShutdownSettlements, PlacesAfterShutdown, PoolShutdownLua, CancelAllLua;
  }

  lemma DownTimer(s: State, order: seq<Co>)
    requires TimerInv(s) && Enumerates(order, s.completions.Keys)
    ensures TimerInv(Shutdown(s, order))
  {
    var s1 := Shutdown(s, order);
    if !s.shuttingDown {
      AllCancelled(s);
      PoolTimer(CancelAll(s), s1);
    }
    hide Shutdown, CancelAll, TimerInv;
  }

  lemma AllCancelled(s: State)
    requires TimerInv(s)
    ensures TimerInv(CancelAll(s))
  {}

  // Giving the pool's slots back is nothing to the timers.
  lemma PoolTimer(s: State, s1: State)
    requires TimerInv(s) && s.timers.active == map[] && s1.timers == s.timers && s1.hist.issued == s.hist.issued
    requires s1.lua == PoolShutdownLua(s.lua, s.pool)
    ensures TimerInv(s1)
  {
    PoolFreesNoTimer(s.pool);
    hide PoolRefs, PoolOwners;
  }

  lemma PoolFreesNoTimer(pool: Pool)
    ensures forall h: Handle :: TimerFn(h) !in PoolOwners(pool)
  {}

  lemma DownKeeps(s: State, order: seq<Co>)
    requires Core(s)
    requires s.ctl == [] && Enumerates(order, s.completions.Keys)
    ensures Core(Shutdown(s, order))
  {
    var s1 := Shutdown(s, order);
    hide *;
    Split(s);
    DownPool(s, order);
    DownCtl(s, order);
    JoinMachine(s1);
    DownHandles(s, order);
    DownTiming(s, order);
    Join(s1);
  }

  // --- flags and history ---

  // `f` differs from `s` only in what the core invariants do not read.
  predicate SameCore(s: State, f: State) {
    && f.lua == s.lua && f.exec == s.exec && f.pool == s.pool && f.timers == s.timers
    && f.pending == s.pending && f.pins == s.pins && f.completions == s.completions
    && (s.shuttingDown ==> f.shuttingDown) && f.closed == s.closed && f.ctl == s.ctl
    && f.hist.issued == s.hist.issued && f.hist.resumes == s.hist.resumes
  }

  lemma FlagsMachine(s: State, f: State)
    requires Machine(s)
    requires SameCore(s, f)
    ensures Machine(f)
  {}

  lemma FlagsHandles(s: State, f: State)
    requires Handles(s)
    requires SameCore(s, f)
    ensures Handles(f)
  {}

  lemma FlagsTiming(s: State, f: State)
    requires Timing(s)
    requires SameCore(s, f)
    ensures Timing(f)
  {}

  lemma FlagsKeeps(s: State, f: State)
    requires Core(s)
    requires SameCore(s, f)
    ensures Core(f)
  {
    var s1 := f;
    hide *;
    Split(s);
    FlagsMachine(s, f);
    FlagsHandles(s, f);
    FlagsTiming(s, f);
    Join(s1);
  }

}
