/**
 The objects the runtime is made of, updating their tables in place as the source does.
 Each method is proved to do what the specification function of SchedulerState says.
 */
module RuntimeParts {
  import opened SchedulerState

  // The Lua state as the runtime sees it: threads and registry slots.
  class LuaVm {
    var cos: map<Co, CoRec>
    var registry: map<Ref, Owner>
    // Counts the uses of identities; the source has no such counter.
    var nextEpoch: nat
    ghost var freed: multiset<Owner>

    constructor ()
      ensures View() == INITIAL.lua
    {
      cos, registry, nextEpoch, freed := map[], map[], 0, multiset{};
    }

    ghost function View(): Lua
      reads this
    {
      Lua(cos, nextEpoch, registry, freed)
    }

    // lua_closethread and lua_settop(0).
    method Reset(co: Co)
      requires co in cos
      modifies this
      ensures View() == SetSt(old(View()), co, Fresh)
    {
      cos := cos[co := cos[co].(st := Fresh)];
    }

    // The thread starts or goes on running, or stops.
    method Mark(co: Co, st: CoState)
      requires co in cos
      modifies this
      ensures View() == SetSt(old(View()), co, st)
    {
      cos := cos[co := cos[co].(st := st)];
    }

    // coroutine.create; `co` is the address of the new thread.
    method Create(co: Co)
      modifies this
      ensures View() == old(View()).(cos := old(cos)[co := CoRec(old(nextEpoch), Fresh, Script)],
                                     nextEpoch := old(nextEpoch) + 1)
    {
      cos := cos[co := CoRec(nextEpoch, Fresh, Script)];
      nextEpoch := nextEpoch + 1;
    }

    // The collector frees a thread.
    method Collect(co: Co)
      modifies this
      ensures View() == old(View()).(cos := old(cos) - {co})
    {
      cos := cos - {co};
    }

    // luaL_unref of a slot that is in use.
    method Unref(r: Ref)
      requires r in registry
      modifies this
      ensures View() == SchedulerState.Unref(old(View()), r)
    {
      freed := freed + multiset{registry[r]};
      registry := registry - {r};
    }

    // lua_status(co) == LUA_YIELD; the thread must still exist.
    predicate Yielded(co: Co)
      requires co in cos
      reads this
    {
      cos[co].st.Suspended?
    }
  }

  class Executor {
    var queue: map<nat, Closure>
    var nextTicket: nat

    constructor ()
      ensures View() == INITIAL.exec
    {
      queue, nextTicket := map[], 0;
    }

    ghost function View(): Exec
      reads this
    {
      Exec(queue, nextTicket)
    }

    method Schedule(c: Closure)
      modifies this
      ensures View() == SchedulerState.Schedule(old(View()), c)
    {
      queue := queue[nextTicket := c];
      nextTicket := nextTicket + 1;
    }
  }

  // Every coroutine of the pool is there once and anchored in its own slot.
  ghost predicate Anchored(lua: Lua, pool: Pool) {
    && (forall co | co in pool.active ::
          pool.active[co] in lua.registry && lua.registry[pool.active[co]] == PoolCo(co))
    && (forall i | 0 <= i < |pool.idle| ::
          && pool.idle[i].co !in pool.active
          && pool.idle[i].ref in lua.registry && lua.registry[pool.idle[i].ref] == PoolCo(pool.idle[i].co))
    && (forall i, j | 0 <= i < j < |pool.idle| :: pool.idle[i].co != pool.idle[j].co)
  }

  class CoroutinePool {
    const lua: LuaVm
    var active: map<Co, Ref>
    var idle: seq<Slot>

    constructor (lua: LuaVm)
      ensures this.lua == lua && View() == INITIAL.pool
    {
      this.lua := lua;
      active, idle := map[], [];
    }

    ghost function View(): Pool
      reads this
    {
      Pool(active, idle)
    }

    // `spare` is the thread that lua_newthread would give, and its slot.
    method Acquire(spare: Slot) returns (co: Co)
      requires idle != [] ==> idle[|idle| - 1].co in lua.cos
      modifies this, lua
      ensures co == AcquiredCo(old(View()), spare)
      ensures View() == PoolAcquire(old(View()), spare)
      ensures lua.View() == LuaAcquire(old(lua.View()), old(View()), spare)
      ensures co in lua.cos
    {
      if idle != [] {
        var slot := idle[|idle| - 1];
        co := slot.co;
        idle := idle[..|idle| - 1];
        active := active[co := slot.ref];
        lua.cos := lua.cos[co := lua.cos[co].(epoch := lua.nextEpoch)];
      } else {
        co := spare.co;
        lua.registry := lua.registry[spare.ref := PoolCo(co)];
        lua.cos := lua.cos[co := CoRec(lua.nextEpoch, Fresh, Pooled(spare.ref))];
        active := active[co := spare.ref];
      }
      lua.nextEpoch := lua.nextEpoch + 1;
    }

    // A coroutine that is not checked out passes through untouched.
    method Release(co: Co)
      requires co in active ==> co in lua.cos
      modifies this, lua
      ensures View() == PoolRelease(old(View()), co)
      ensures lua.View() == if co in old(active) then SetSt(old(lua.View()), co, Fresh) else old(lua.View())
    {
      if co !in active { return; }
      lua.Reset(co);
      idle := idle + [Slot(co, active[co])];
      active := active - {co};
    }

    // `order` is the order in which the hash map is walked.
    method ReleaseAll(order: seq<Co>)
      requires Enumerates(order, active.Keys)
      requires active.Keys <= lua.cos.Keys
      modifies this, lua
      ensures View() == PoolReleaseAll(old(View()), order)
      ensures lua.View() == ResetAll(old(lua.View()), old(active.Keys))
    {
      for i := 0 to |order|
        invariant active == old(active)
        invariant idle == old(idle) + Slots(active, order)[..i]
        invariant lua.cos.Keys == old(lua.cos.Keys)
        invariant forall co | co in lua.cos ::
          lua.cos[co] == if co in order[..i] then old(lua.cos)[co].(st := Fresh) else old(lua.cos)[co]
        invariant lua.registry == old(lua.registry) && lua.freed == old(lua.freed)
        invariant lua.nextEpoch == old(lua.nextEpoch)
      {
        var co := order[i];
        assert order[..i + 1] == order[..i] + [co];
        lua.Reset(co);
        idle := idle + [Slot(co, active[co])];
      }
      assert order[..|order|] == order;
      active := map[];
    }

    method Shutdown()
      requires Anchored(lua.View(), View())
      modifies this, lua
      ensures View() == Pool(map[], [])
      ensures lua.View() == PoolShutdownLua(old(lua.View()), old(View()))
    {
      ghost var homes, owners := HomesOf(active, active.Keys), AsOwners(active.Keys);
      ghost var idleHomes, idleOwners := HomesTo(idle, |idle|), OwnersTo(idle, |idle|);
      assert forall i | 0 <= i < |idle| :: idle[i].ref !in homes;
      UnrefActive();
      UnrefIdle();
      assert PoolRefs(View()) == homes + idleHomes && PoolOwners(View()) == owners + idleOwners;
      RemoveAll(old(lua.registry), homes, idleHomes);
      CountAll(old(lua.freed), owners, idleOwners);
      // Nothing anchors the pool's threads any more.
      lua.cos := map co | co in lua.cos && lua.cos[co].kind.Script? :: lua.cos[co];
      active, idle := map[], [];
    }

    method UnrefActive()
      requires forall co | co in active :: active[co] in lua.registry && lua.registry[active[co]] == PoolCo(co)
      modifies lua
      ensures lua.cos == old(lua.cos) && lua.nextEpoch == old(lua.nextEpoch)
      ensures lua.registry == old(lua.registry) - HomesOf(active, active.Keys)
      ensures lua.freed == old(lua.freed) + multiset(AsOwners(active.Keys))
    {
      var left := active.Keys;
      ghost var done: set<Co> := {};
      NoCos(active);
      hide HomesOf, AsOwners;
      while left != {}
        invariant left == active.Keys - done && done <= active.Keys
        invariant lua.cos == old(lua.cos) && lua.nextEpoch == old(lua.nextEpoch)
        invariant lua.registry == old(lua.registry) - HomesOf(active, done)
        invariant lua.freed == old(lua.freed) + multiset(AsOwners(done))
      {
        var co :| co in left;
        OneMoreCo(old(lua.registry), active, done, co);
        RemoveOne(old(lua.registry), HomesOf(active, done), active[co]);
        CountOne(old(lua.freed), AsOwners(done), PoolCo(co));
        lua.Unref(active[co]);
        left, done := left - {co}, done + {co};
      }
      assert done == active.Keys;
    }

    method UnrefIdle()
      requires forall i | 0 <= i < |idle| ::
        idle[i].ref in lua.registry && lua.registry[idle[i].ref] == PoolCo(idle[i].co)
      requires forall i, j | 0 <= i < j < |idle| :: idle[i].co != idle[j].co
      modifies lua
      ensures lua.cos == old(lua.cos) && lua.nextEpoch == old(lua.nextEpoch)
      ensures lua.registry == old(lua.registry) - HomesTo(idle, |idle|)
      ensures lua.freed == old(lua.freed) + multiset(OwnersTo(idle, |idle|))
    {
      NoSlots(idle);
      hide HomesTo, OwnersTo;
      for i := 0 to |idle|
        invariant lua.cos == old(lua.cos) && lua.nextEpoch == old(lua.nextEpoch)
        invariant lua.registry == old(lua.registry) - HomesTo(idle, i)
        invariant lua.freed == old(lua.freed) + multiset(OwnersTo(idle, i))
      {
        OneMoreSlot(old(lua.registry), idle, i);
        RemoveOne(old(lua.registry), HomesTo(idle, i), idle[i].ref);
        CountOne(old(lua.freed), OwnersTo(idle, i), PoolCo(idle[i].co));
        lua.Unref(idle[i].ref);
      }
    }
  }

  // The slots and owners of the first n idle coroutines.
  ghost function HomesTo(idle: seq<Slot>, n: nat): set<Ref>
    requires n <= |idle|
  {
    set i | 0 <= i < n :: idle[i].ref
  }

  ghost function OwnersTo(idle: seq<Slot>, n: nat): set<Owner>
    requires n <= |idle|
  {
    set i | 0 <= i < n :: PoolCo(idle[i].co)
  }

  ghost function HomesOf(active: map<Co, Ref>, cos: set<Co>): set<Ref> {
    set co | co in cos && co in active :: active[co]
  }

  ghost function AsOwners(cos: set<Co>): set<Owner> {
    set co | co in cos :: PoolCo(co)
  }

  lemma RemoveAll<K, V>(m: map<K, V>, a: set<K>, b: set<K>)
    ensures (m - a) - b == m - (a + b)
  {}

  lemma CountAll<T>(m: multiset<T>, a: set<T>, b: set<T>)
    requires a !! b
    ensures m + multiset(a) + multiset(b) == m + multiset(a + b)
  {}

  lemma NoCos(active: map<Co, Ref>)
    ensures HomesOf(active, {}) == {} && AsOwners({}) == {}
  {}

  lemma NoSlots(idle: seq<Slot>)
    ensures HomesTo(idle, 0) == {} && OwnersTo(idle, 0) == {}
  {}

  lemma OneMoreSlot(registry: map<Ref, Owner>, idle: seq<Slot>, n: nat)
    requires n < |idle|
    requires forall i | 0 <= i < |idle| :: idle[i].ref in registry && registry[idle[i].ref] == PoolCo(idle[i].co)
    requires forall i, j | 0 <= i < j < |idle| :: idle[i].co != idle[j].co
    ensures HomesTo(idle, n + 1) == HomesTo(idle, n) + {idle[n].ref} && idle[n].ref !in HomesTo(idle, n)
    ensures OwnersTo(idle, n + 1) == OwnersTo(idle, n) + {PoolCo(idle[n].co)}
    ensures PoolCo(idle[n].co) !in OwnersTo(idle, n)
  {
    assert forall k: Owner | k in OwnersTo(idle, n) :: k.PoolCo? && exists i | 0 <= i < n :: idle[i].co == k.co;
  }

  lemma OneMoreCo(registry: map<Ref, Owner>, active: map<Co, Ref>, cos: set<Co>, co: Co)
    requires co in active && co !in cos
    requires forall k | k in active :: active[k] in registry && registry[active[k]] == PoolCo(k)
    ensures HomesOf(active, cos + {co}) == HomesOf(active, cos) + {active[co]}
    ensures AsOwners(cos + {co}) == AsOwners(cos) + {PoolCo(co)}
    ensures PoolCo(co) !in AsOwners(cos) && active[co] !in HomesOf(active, cos)
  {}

  class TimerManager {
    const lua: LuaVm
    const exec: Executor
    var next: Handle
    var active: map<Handle, ActiveTimer>
    ghost var armed: map<Handle, nat>
    ghost var timeouts: set<Handle>
    ghost var fired: multiset<Handle>

    constructor (lua: LuaVm, exec: Executor)
      ensures this.lua == lua && this.exec == exec && View() == INITIAL.timers
    {
      this.lua, this.exec := lua, exec;
      next, active, armed, timeouts, fired := 1, map[], map[], {}, multiset{};
    }

    ghost function View(): Timers
      reads this
    {
      Timers(next, active, armed, timeouts, fired)
    }

    method NextHandle() returns (h: Handle)
      modifies this`next
      ensures h == old(next) && next == h + 1
    {
      h := next;
      next := next + 1;
    }

    method AddSleepTimer(h: Handle)
      modifies this, exec
      ensures View() == old(View()).(active := old(active)[h := Sleep], armed := old(armed)[h := old(exec.nextTicket)])
      ensures exec.View() == SchedulerState.Schedule(old(exec.View()), SleepExpiry(h))
    {
      active := active[h := Sleep];
      armed := armed[h := exec.nextTicket];
      exec.Schedule(SleepExpiry(h));
    }

    method AddTimeoutTimer(fn: Ref) returns (h: Handle)
      modifies this, exec
      ensures h == old(next)
      ensures View() == Timers(h + 1, old(active)[h := SetTimeout(fn)], old(armed)[h := old(exec.nextTicket)],
                               old(timeouts) + {h}, old(fired))
      ensures exec.View() == SchedulerState.Schedule(old(exec.View()), TimeoutExpiry(h, fn))
    {
      h := NextHandle();
      active := active[h := SetTimeout(fn)];
      armed := armed[h := exec.nextTicket];
      timeouts := timeouts + {h};
      exec.Schedule(TimeoutExpiry(h, fn));
    }

    // active_timers_.erase(handle), the test at the head of every timer closure.
    method Erase(h: Handle) returns (was: bool)
      modifies this`active
      ensures was == (h in old(active)) && active == old(active) - {h}
    {
      was := h in active;
      active := active - {h};
    }

    method CancelTimer(h: Handle)
      requires h in active && active[h].SetTimeout? ==> active[h].fn in lua.registry
      modifies this`active, lua
      ensures active == old(active) - {h}
      ensures lua.View() == CancelTimerLua(old(lua.View()), old(View()), h)
    {
      if h in active {
        if active[h].SetTimeout? {
          lua.Unref(active[h].fn);
        }
        active := active - {h};
      } else {
        assert active - {h} == active;
      }
    }

    method CancelAll()
      requires forall h | h in active && active[h].SetTimeout? ::
        active[h].fn in lua.registry && lua.registry[active[h].fn] == TimerFn(h)
      modifies this`active, lua
      ensures active == map[] && lua.cos == old(lua.cos)
      ensures lua.View() == CancelAllLua(old(lua.View()), old(View()))
    {
      hide RefsOf, OwnersOf;
      WholeTimers(View());
      var left := active.Keys;
      ghost var done: set<Handle> := {};
      while left != {}
        invariant left == active.Keys - done && done <= active.Keys && active == old(active)
        invariant lua.cos == old(lua.cos) && lua.nextEpoch == old(lua.nextEpoch)
        invariant lua.registry == old(lua.registry) - RefsOf(active, done)
        invariant lua.freed == old(lua.freed) + multiset(OwnersOf(active, done))
      {
        var h :| h in left;
        if active[h].SetTimeout? {
          OneMoreTimeout(old(lua.registry), active, done, h);
          RemoveOne(old(lua.registry), RefsOf(active, done), active[h].fn);
          CountOne(old(lua.freed), OwnersOf(active, done), TimerFn(h));
          lua.Unref(active[h].fn);
        } else {
          OneMoreSleep(active, done, h);
        }
        left, done := left - {h}, done + {h};
      }
      assert done == active.Keys;
      active := map[];
    }
  }

  // What the timers in `hs` hold.
  ghost function RefsOf(active: map<Handle, ActiveTimer>, hs: set<Handle>): set<Ref> {
    set h | h in hs && h in active && active[h].SetTimeout? :: active[h].fn
  }

  ghost function OwnersOf(active: map<Handle, ActiveTimer>, hs: set<Handle>): set<Owner> {
    set h | h in hs && h in active && active[h].SetTimeout? :: TimerFn(h)
  }

  lemma WholeTimers(t: Timers)
    ensures RefsOf(t.active, {}) == {} && OwnersOf(t.active, {}) == {}
    ensures RefsOf(t.active, t.active.Keys) == TimeoutRefs(t) && OwnersOf(t.active, t.active.Keys) == TimerOwners(t)
  {}

  lemma OneMoreTimeout(registry: map<Ref, Owner>, active: map<Handle, ActiveTimer>, hs: set<Handle>, h: Handle)
    requires h in active && h !in hs && active[h].SetTimeout?
    requires forall k | k in active && active[k].SetTimeout? ::
      active[k].fn in registry && registry[active[k].fn] == TimerFn(k)
    ensures RefsOf(active, hs + {h}) == RefsOf(active, hs) + {active[h].fn}
    ensures OwnersOf(active, hs + {h}) == OwnersOf(active, hs) + {TimerFn(h)}
    ensures TimerFn(h) !in OwnersOf(active, hs) && active[h].fn !in RefsOf(active, hs)
  {}

  lemma OneMoreSleep(active: map<Handle, ActiveTimer>, hs: set<Handle>, h: Handle)
    requires h in active && active[h].Sleep?
    ensures RefsOf(active, hs + {h}) == RefsOf(active, hs) && OwnersOf(active, hs + {h}) == OwnersOf(active, hs)
  {}

  lemma RemoveOne<K, V>(m: map<K, V>, gone: set<K>, k: K)
    ensures (m - gone) - {k} == m - (gone + {k})
  {}

  lemma CountOne<T>(m: multiset<T>, counted: set<T>, x: T)
    requires x !in counted
    ensures m + multiset(counted) + multiset{x} == m + multiset(counted + {x})
  {}
}
