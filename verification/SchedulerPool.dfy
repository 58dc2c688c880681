/** The pool in every run, and how a run ends. */
module SchedulerPool {
  import opened SchedulerState
  import opened SchedulerSteps
  import opened SchedulerInvariant
  import opened SchedulerKeeps
  import opened SchedulerSafety
  import opened SchedulerRuns
  import opened SchedulerHandlers

  // --- the pool ---

  /**
   Checked-out and idle coroutines are disjoint and duplicate-free, each with the registry
   slot it was created with, and together they are all the pool coroutines there are.
   */
  lemma PoolIsPartitioned(r: Run)
    requires ValidRun(r)
    ensures var s := r.states[|r.steps|];
            && (forall co | co in s.lua.cos && s.lua.cos[co].kind.Pooled? ::
                  co in s.pool.active <==> !InIdle(s.pool.idle, co))
            && (forall i | 0 <= i < |s.pool.idle| ::
                  s.pool.idle[i].co in s.lua.cos && s.lua.cos[s.pool.idle[i].co].kind == Pooled(s.pool.idle[i].ref))
            && (forall i, j | 0 <= i < j < |s.pool.idle| :: s.pool.idle[i].co != s.pool.idle[j].co)
            && (forall co | co in s.pool.active :: co in s.lua.cos && s.lua.cos[co].kind == Pooled(s.pool.active[co]))
  {
    var s := r.states[|r.steps|];
    RunKeeps(r, |r.steps|);
    Split(s);
    hide Inv, Core, Machine, Handles, Timing, HomeInv, CtlInv, KeyInv, ClosedInv, PendInv, ResumeInv;
    hide CallerInv, ArmedInv, TimerInv;
    hide ValidRun;
  }

  lemma PoolRefsGivenBack(s: State, order: seq<Co>)
    requires PoolInv(s) && TimerInv(s) && Enumerates(order, s.completions.Keys) && !s.shuttingDown && !s.closed
    ensures forall co :: Shutdown(s, order).lua.freed[PoolCo(co)] ==
              if co in s.lua.cos && s.lua.cos[co].kind.Pooled? then 1 else 0
  {
    var owners := PoolOwners(s.pool);
    forall co ensures PoolCo(co) in owners <==> co in s.lua.cos && s.lua.cos[co].kind.Pooled? {
      if InIdle(s.pool.idle, co) {
        var i :| 0 <= i < |s.pool.idle| && s.pool.idle[i].co == co;
        assert PoolCo(s.pool.idle[i].co) in owners;
      }
    }
  }

  lemma TimerRefsGivenBack(s: State, order: seq<Co>)
    requires TimerInv(s) && Enumerates(order, s.completions.Keys) && !s.shuttingDown
    ensures forall h :: Shutdown(s, order).lua.freed[TimerFn(h)] == if h in s.timers.timeouts then 1 else 0
  {}

  lemma RegistryEmptied(s: State, order: seq<Co>)
    requires PoolInv(s) && TimerInv(s) && Enumerates(order, s.completions.Keys) && !s.shuttingDown
    ensures Shutdown(s, order).lua.registry == map[]
  {
    var s1 := Shutdown(s, order);
    forall r | r in s.lua.registry ensures r !in s1.lua.registry {
      match s.lua.registry[r] {
        case TimerFn(h) => assert r in TimeoutRefs(s.timers);
        case PoolCo(co) =>
          if InIdle(s.pool.idle, co) {
            var i :| 0 <= i < |s.pool.idle| && s.pool.idle[i].co == co;
            assert s.pool.idle[i].ref in PoolRefs(s.pool);
          }
      }
    }
  }

  /** Shutdown gives every registry slot back exactly once. */
  lemma ShutdownReleasesOnce(r: Run, n: nat, order: seq<Co>)
    requires ValidRun(r) && n <= |r.steps| && Enabled(r.states[n], HostShutsDown(order)) && !r.states[n].shuttingDown
    ensures AllGivenBack(r.states[n], Shutdown(r.states[n], order))
  {
    RunKeeps(r, n);
    hide Inv, ValidRun, AllGivenBack, Shutdown;
    ShutdownReleases(r.states[n], order);
  }

  // Each slot of the pool and of every setTimeout was given back once, and nothing is left.
  ghost predicate AllGivenBack(s: State, s1: State) {
    && (forall co :: s1.lua.freed[PoolCo(co)] == if co in s.lua.cos && s.lua.cos[co].kind.Pooled? then 1 else 0)
    && (forall h :: s1.lua.freed[TimerFn(h)] == if h in s.timers.timeouts then 1 else 0)
    && s1.lua.registry == map[] && s1.pool == Pool(map[], []) && s1.pending == map[]
    && s1.completions == map[] && s1.timers.active == map[]
  }

  lemma ShutdownReleases(s: State, order: seq<Co>)
    requires Inv(s) && Enabled(s, HostShutsDown(order)) && !s.shuttingDown
    ensures AllGivenBack(s, Shutdown(s, order))
  {
    hide Core, PlaceInv, PoolInv, TimerInv, Shutdown, Machine, Handles, Timing, CtlInv, KeyInv, ClosedInv;
    hide PendInv, ResumeInv;
    hide CallerInv, ArmedInv, IdleInv, ActiveInv, HomeInv;
    OpenFacts(s);
    Split(s);
    PoolRefsGivenBack(s, order);
    TimerRefsGivenBack(s, order);
    RegistryEmptied(s, order);
    TablesEmptied(s, order);
  }

  lemma TablesEmptied(s: State, order: seq<Co>)
    requires Enumerates(order, s.completions.Keys) && !s.shuttingDown
    ensures var s1 := Shutdown(s, order);
            && s1.pool == Pool(map[], []) && s1.pending == map[] && s1.completions == map[]
            && s1.timers.active == map[]
  {
    hide PoolShutdownLua, CancelAllLua;
  }

  // Each of these coroutines stood still, and its handler got the place where it stood.
  predicate SettledThere(s: State, s1: State, order: seq<Co>)
    requires Enumerates(order, s.completions.Keys)
  {
    && s.hist.settled <= s1.hist.settled && |s1.hist.settled| == |s.hist.settled| + |order|
    && forall i | 0 <= i < |order| ::
         && SuspendedAt(s.lua, order[i])
         && s1.hist.settled[|s.hist.settled| + i] ==
              Settlement(s.completions[order[i]].id, ShutDown(s.lua.cos[order[i]].st.loc))
  }

  /** Shutdown settles every awaited coroutine, naming the place where it stood. */
  lemma ShutdownSettlesInPlace(r: Run, n: nat, order: seq<Co>)
    requires ValidRun(r) && n <= |r.steps| && Enabled(r.states[n], HostShutsDown(order)) && !r.states[n].shuttingDown
    ensures SettledThere(r.states[n], Shutdown(r.states[n], order), order)
  {
    var s := r.states[n];
    RunKeeps(r, n);
    hide Inv, ValidRun, Shutdown, SettledThere;
    forall i | 0 <= i < |order| ensures SuspendedAt(s.lua, order[i]) { CompletionSuspended(s, order[i]); }
    DownSettles(s, order);
  }

  lemma DownSettles(s: State, order: seq<Co>)
    requires Enumerates(order, s.completions.Keys) && !s.shuttingDown
    requires forall i | 0 <= i < |order| :: SuspendedAt(s.lua, order[i])
    ensures SettledThere(s, Shutdown(s, order), order)
  {
    DownLog(s, order);
    hide Shutdown;
  }

  lemma DownLog(s: State, order: seq<Co>)
    requires Enumerates(order, s.completions.Keys) && !s.shuttingDown
    ensures Shutdown(s, order).hist.settled == s.hist.settled + ShutdownSettlements(s, order)
    ensures Shutdown(s, order).ctl == s.ctl
  {
    hide PoolShutdownLua, CancelAllLua, ShutdownSettlements, PlacesAfterShutdown;
  }
}
