/**
 The abstract state of the runtime and what each operation does to it.

 The runtime lives on one executor thread. A call of `lua_resume` hands control to a
 script, and the script may do almost anything before it stops, so every source
 function that calls `lua_resume` is cut there: the part before pushes a `Frame` on
 `ctl`, the part after runs when the script stops (`EndScript`). `ctl` is thus the
 executor's call stack. A completion handler is likewise pushed as a `Deliver` item, so
 host code that the handler runs inline is just more steps taken above it.

 What the source leaves to the world outside (addresses of new threads, free registry
 slots, the order in which a hash map is walked, what a script does) is an argument.
 */
module SchedulerState {
  import opened Wrappers

  // A `lua_State*`: an identity that can be used again.
  type Co = nat
  // A slot handed out by `luaL_ref`.
  type Ref = nat
  type Handle = nat
  type HandlerId = nat
  // Where a coroutine is suspended (the line reported for it).
  type Location = nat
  type Value = int

  // The values that the runtime itself passes to scripts.
  const NIL: Value := 0
  const TRUE: Value := 1
  const INTERRUPTED_TEXT: Value := 2
  const SHUTDOWN_TEXT: Value := 3

  // --- the Lua state ---

  // `Running(at)`: the coroutine is item `at` of the call stack.
  datatype CoState = Fresh | Running(at: nat) | Suspended(loc: Location) | Dead
  datatype CoKind = Pooled(ref: Ref) | Script
  // `epoch` numbers the uses of an identity: one per checkout of a pool coroutine, one
  // per creation of a script coroutine.
  datatype CoRec = CoRec(epoch: nat, st: CoState, kind: CoKind)

  datatype Owner = TimerFn(handle: Handle) | PoolCo(co: Co)

  datatype Lua = Lua(
    cos: map<Co, CoRec>,
    nextEpoch: nat,
    registry: map<Ref, Owner>,
    freed: multiset<Owner>)

  // --- the executor's queue ---

  datatype TaskKind = LoadScript | CallRef
  datatype Closure =
    | Task(kind: TaskKind, id: HandlerId)
    | Resume(h: Handle, args: seq<Value>)
    | RequireRun(h: Handle)
    | LoadFileRun(h: Handle)
    | InterruptPass
    | ClearFlag
    | SleepExpiry(h: Handle)
    | TimeoutExpiry(h: Handle, fn: Ref)

  datatype Exec = Exec(queue: map<nat, Closure>, nextTicket: nat)

  // --- pool and timers ---

  datatype Slot = Slot(co: Co, ref: Ref)
  datatype Pool = Pool(active: map<Co, Ref>, idle: seq<Slot>)

  datatype ActiveTimer = Sleep | SetTimeout(fn: Ref)
  // `armed` remembers the queue ticket of the closure last scheduled for a handle,
  // `timeouts` every handle that setTimeout handed out, `fired` those whose function ran.
  datatype Timers = Timers(
    next: Handle,
    active: map<Handle, ActiveTimer>,
    armed: map<Handle, nat>,
    timeouts: set<Handle>,
    fired: multiset<Handle>)

  // --- completions ---

  datatype Result =
    | Ok(values: seq<Value>)
    | Failed(message: Value)
    | LoadError
    | Rejected
    | Interrupted(loc: Location)
    | ShutDown(loc: Location)

  datatype Handler =
    | TaskPromise(id: HandlerId)
    | HostCallback(id: HandlerId)
    | RequireDone(id: HandlerId, caller: Handle)

  datatype After =
    | AfterTask(id: HandlerId)
    | AfterCall(id: HandlerId)
    | AfterTimeout
    | AfterRequire(caller: Handle)
    | AfterResume
    | ByScript

  datatype Ctl =
    | Frame(co: Co, after: After)
    | Deliver(handler: Handler, result: Result)

  // How a script stops.
  datatype Outcome = Yielded(loc: Location) | Returned(values: seq<Value>) | Raised(message: Value)

  datatype Fault = UnhandledError(message: Value) | NotResumable(h: Handle)

  // --- history ---

  // Who obtained a handle in PreYield, and during which use of its identity.
  datatype Ticket = Ticket(co: Co, epoch: nat, sleep: bool)
  datatype Resumption = Resumption(h: Handle, co: Co, epoch: nat, args: seq<Value>)
  datatype Settlement = Settlement(id: HandlerId, result: Result)
  // The one place where a submitted handler is.
  datatype Place =
    | Queued(ticket: nat)
    | OnStack(at: nat)
    | AtCo(co: Co)
    | Cancelled
    | Settled(at: nat)

  datatype History = History(
    issued: map<Handle, Ticket>,
    resumes: seq<Resumption>,
    settled: seq<Settlement>,
    cancelled: set<HandlerId>,
    nextId: HandlerId,
    place: map<HandlerId, Place>)

  datatype State = State(
    lua: Lua,
    exec: Exec,
    pool: Pool,
    timers: Timers,
    pending: map<Handle, Co>,
    pins: map<Handle, Co>,
    completions: map<Co, Handler>,
    interrupted: bool,
    shuttingDown: bool,
    paused: bool,
    closed: bool,
    unhandled: Option<Fault>,
    ctl: seq<Ctl>,
    hist: History)

  const INITIAL := State(
    Lua(map[], 0, map[], multiset{}), Exec(map[], 0), Pool(map[], []),
    Timers(1, map[], map[], {}, multiset{}),
    map[], map[], map[], false, false, false, false, None, [],
    History(map[], [], [], {}, 0, map[]))

  // --- small pieces ---

  predicate Enumerates<T>(order: seq<T>, keys: set<T>) {
    && (forall i, j | 0 <= i < j < |order| :: order[i] != order[j])
    && (forall k | k in order :: k in keys)
    && (forall k | k in keys :: k in order)
  }

  function IndexOf<T(==)>(order: seq<T>, k: T): (i: nat)
    requires k in order
    ensures i < |order| && order[i] == k
  {
    if order[0] == k then 0 else 1 + IndexOf(order[1..], k)
  }

  predicate SuspendedAt(lua: Lua, co: Co) {
    co in lua.cos && lua.cos[co].st.Suspended?
  }

  function SetSt(lua: Lua, co: Co, st: CoState): Lua {
    if co in lua.cos then lua.(cos := lua.cos[co := lua.cos[co].(st := st)]) else lua
  }

  function Unref(lua: Lua, r: Ref): Lua {
    if r in lua.registry then
      lua.(registry := lua.registry - {r}, freed := lua.freed + multiset{lua.registry[r]})
    else lua
  }

  function Schedule(exec: Exec, c: Closure): Exec {
    exec.(queue := exec.queue[exec.nextTicket := c], nextTicket := exec.nextTicket + 1)
  }

  // --- CoroutinePool ---

  function AcquiredCo(pool: Pool, spare: Slot): Co {
    if pool.idle != [] then pool.idle[|pool.idle| - 1].co else spare.co
  }

  function PoolAcquire(pool: Pool, spare: Slot): Pool {
    if pool.idle != [] then
      var slot := pool.idle[|pool.idle| - 1];
      Pool(pool.active[slot.co := slot.ref], pool.idle[..|pool.idle| - 1])
    else
      pool.(active := pool.active[spare.co := spare.ref])
  }

  // A new thread is allocated and anchored in the registry only when the pool is empty.
  function LuaAcquire(lua: Lua, pool: Pool, spare: Slot): Lua {
    if pool.idle != [] then
      var co := pool.idle[|pool.idle| - 1].co;
      if co in lua.cos then
        lua.(cos := lua.cos[co := lua.cos[co].(epoch := lua.nextEpoch)], nextEpoch := lua.nextEpoch + 1)
      else lua
    else
      lua.(cos := lua.cos[spare.co := CoRec(lua.nextEpoch, Fresh, Pooled(spare.ref))],
           nextEpoch := lua.nextEpoch + 1,
           registry := lua.registry[spare.ref := PoolCo(spare.co)])
  }

  predicate SpareSlot(s: State, spare: Slot) {
    s.pool.idle == [] ==> spare.co !in s.lua.cos && spare.ref !in s.lua.registry
  }

  function Acquire(s: State, spare: Slot): State {
    s.(lua := LuaAcquire(s.lua, s.pool, spare), pool := PoolAcquire(s.pool, spare))
  }

  function PoolRelease(pool: Pool, co: Co): Pool {
    if co in pool.active then Pool(pool.active - {co}, pool.idle + [Slot(co, pool.active[co])]) else pool
  }

  function Release(s: State, co: Co): State {
    if co in s.pool.active then
      s.(lua := SetSt(s.lua, co, Fresh), pool := PoolRelease(s.pool, co))
    else s
  }

  function Slots(active: map<Co, Ref>, order: seq<Co>): seq<Slot>
    requires forall co | co in order :: co in active
  {
    seq(|order|, i requires 0 <= i < |order| => Slot(order[i], active[order[i]]))
  }

  function PoolReleaseAll(pool: Pool, order: seq<Co>): Pool
    requires Enumerates(order, pool.active.Keys)
  {
    Pool(map[], pool.idle + Slots(pool.active, order))
  }

  function ResetAll(lua: Lua, cos: set<Co>): Lua {
    lua.(cos := map co | co in lua.cos :: if co in cos then lua.cos[co].(st := Fresh) else lua.cos[co])
  }

  // --- TimerManager ---

  function CancelTimerLua(lua: Lua, timers: Timers, h: Handle): Lua {
    if h in timers.active && timers.active[h].SetTimeout? then Unref(lua, timers.active[h].fn) else lua
  }

  function CancelTimer(s: State, h: Handle): State {
    s.(lua := CancelTimerLua(s.lua, s.timers, h),
       timers := s.timers.(active := s.timers.active - {h}))
  }

  function ArmSleep(s: State, h: Handle): State {
    s.(timers := s.timers.(active := s.timers.active[h := Sleep],
                           armed := s.timers.armed[h := s.exec.nextTicket]),
       exec := Schedule(s.exec, SleepExpiry(h)))
  }

  function ArmTimeout(s: State, fn: Ref): State {
    var h := s.timers.next;
    s.(timers := s.timers.(next := h + 1,
                           active := s.timers.active[h := SetTimeout(fn)],
                           armed := s.timers.armed[h := s.exec.nextTicket],
                           timeouts := s.timers.timeouts + {h}),
       exec := Schedule(s.exec, TimeoutExpiry(h, fn)))
  }

  // setTimeout: the function is stored in slot `fn` and the timer is armed.
  function TimeoutSet(s: State, fn: Ref): State {
    ArmTimeout(s.(lua := s.lua.(registry := s.lua.registry[fn := TimerFn(s.timers.next)])), fn)
  }

  // coroutine.create.
  function Created(s: State, co: Co): State {
    s.(lua := s.lua.(cos := s.lua.cos[co := CoRec(s.lua.nextEpoch, Fresh, Script)],
                     nextEpoch := s.lua.nextEpoch + 1))
  }

  function TimeoutRefs(timers: Timers): set<Ref> {
    set h | h in timers.active && timers.active[h].SetTimeout? :: timers.active[h].fn
  }

  function TimerOwners(timers: Timers): set<Owner> {
    set h | h in timers.active && timers.active[h].SetTimeout? :: TimerFn(h)
  }

  function CancelAllLua(lua: Lua, timers: Timers): Lua {
    lua.(registry := lua.registry - TimeoutRefs(timers),
         freed := lua.freed + multiset(TimerOwners(timers)))
  }

  function CancelAll(s: State): State {
    s.(lua := CancelAllLua(s.lua, s.timers), timers := s.timers.(active := map[]))
  }

  // --- pending handles ---

  function PreYield(s: State, co: Co, sleep: bool): State {
    var h := s.timers.next;
    var epoch := if co in s.lua.cos then s.lua.cos[co].epoch else 0;
    s.(timers := s.timers.(next := h + 1),
       pending := s.pending[h := co],
       pins := s.pins[h := co],
       hist := s.hist.(issued := s.hist.issued[h := Ticket(co, epoch, sleep)]))
  }

  function HandlesOf(s: State, co: Co): set<Handle> {
    set h | h in s.pending && s.pending[h] == co
  }

  // CleanupStalePendings: no pending handle is a setTimeout handle, so nothing is unref'd.
  function Purge(s: State, co: Co): State {
    s.(timers := s.timers.(active := s.timers.active - HandlesOf(s, co)),
       pins := s.pins - HandlesOf(s, co),
       pending := s.pending - HandlesOf(s, co))
  }

  function Record(s: State, f: Fault): State {
    if s.unhandled.None? then s.(unhandled := Some(f)) else s
  }

  // --- the call stack ---

  function PushFrame(s: State, co: Co, after: After): State {
    s.(lua := SetSt(s.lua, co, Running(|s.ctl|)), ctl := s.ctl + [Frame(co, after)])
  }

  function PutHandler(s: State, co: Co, hd: Handler): State {
    s.(completions := s.completions[co := hd],
       hist := s.hist.(place := s.hist.place[hd.id := AtCo(co)]))
  }

  function PushDeliver(s: State, hd: Handler, r: Result): State {
    s.(ctl := s.ctl + [Deliver(hd, r)],
       hist := s.hist.(place := s.hist.place[hd.id := OnStack(|s.ctl|)]))
  }

  function NewHandlerId(s: State): State {
    s.(hist := s.hist.(nextId := s.hist.nextId + 1))
  }

  // AcquireCoroutine followed by the start of lua_resume.
  function Enter(s: State, spare: Slot, after: After): State {
    PushFrame(Acquire(s, spare), AcquiredCo(s.pool, spare), after)
  }

  // AcquireCoroutine, a chunk that does not load (or is only compiled), ReleaseCoroutine.
  function LoadOnly(s: State, spare: Slot): State {
    Release(Acquire(s, spare), AcquiredCo(s.pool, spare))
  }

  function DoResume(s: State, h: Handle, args: seq<Value>): State {
    if h !in s.pending then s else
    var co := s.pending[h];
    var s1 := s.(pins := s.pins - {h}, pending := s.pending - {h});
    if !SuspendedAt(s.lua, co) then
      Release(Purge(Record(s1, NotResumable(h)), co), co)
    else
      var s2 := PushFrame(s1, co, AfterResume);
      s2.(hist := s2.hist.(resumes := s2.hist.resumes + [Resumption(h, co, s.lua.cos[co].epoch, args)]))
  }

  function PushResume(s: State, h: Handle, args: seq<Value>): State {
    if s.shuttingDown then s else s.(exec := Schedule(s.exec, Resume(h, args)))
  }

  // --- what follows a lua_resume ---

  function ResultOf(out: Outcome): Result
    requires !out.Yielded?
  {
    if out.Returned? then Ok(out.values) else Failed(out.message)
  }

  // MaybeRecycleCo for a coroutine that did not yield.
  function Recycle(s: State, co: Co, out: Outcome): State
    requires !out.Yielded?
  {
    var s1 := Purge(s, co);
    if co in s.completions then
      PushDeliver(Release(s1.(completions := s1.completions - {co}), co), s.completions[co], ResultOf(out))
    else if out.Raised? then
      Record(Release(s1, co), UnhandledError(out.message))
    else
      Release(s1, co)
  }

  function PopFrame(s: State, out: Outcome): State
    requires s.ctl != [] && s.ctl[|s.ctl| - 1].Frame?
  {
    var co := s.ctl[|s.ctl| - 1].co;
    s.(ctl := s.ctl[..|s.ctl| - 1],
       lua := SetSt(s.lua, co, if out.Yielded? then Suspended(out.loc) else Dead))
  }

  // The end of ProcessTask: completions_ is assigned before the status is looked at.
  function TaskReturned(s: State, co: Co, id: HandlerId, out: Outcome): State {
    var s1 := PutHandler(s, co, TaskPromise(id));
    if out.Yielded? then s1 else Recycle(s1, co, out)
  }

  // The end of DoResume, PushResumeDirect and the timeout callback.
  function ResumeReturned(s: State, co: Co, out: Outcome): State {
    if out.Yielded? then s else Recycle(s, co, out)
  }

  // The end of CallWithCallback, and AwaitCoroutine.
  function CallReturned(s: State, co: Co, id: HandlerId, out: Outcome): State {
    if out.Yielded? then PutHandler(s, co, HostCallback(id))
    else PushDeliver(Release(Purge(s, co), co), HostCallback(id), ResultOf(out))
  }

  // The end of ProcessRequireRun: the coroutine is released without CleanupStalePendings.
  function RequireReturned(s: State, co: Co, caller: Handle, out: Outcome): State {
    if out.Yielded? then PutHandler(NewHandlerId(s), co, RequireDone(s.hist.nextId, caller))
    else Release(PushResume(s, caller, RequireArgs(ResultOf(out))), co)
  }

  function EndScript(s: State, out: Outcome): State
    requires s.ctl != [] && s.ctl[|s.ctl| - 1].Frame?
  {
    var Frame(co, after) := s.ctl[|s.ctl| - 1];
    var s0 := PopFrame(s, out);
    match after
    case ByScript => s0
    case AfterTask(id) => TaskReturned(s0, co, id, out)
    case AfterResume => ResumeReturned(s0, co, out)
    case AfterTimeout => ResumeReturned(s0, co, out)
    case AfterCall(id) => CallReturned(s0, co, id, out)
    case AfterRequire(caller) => RequireReturned(s0, co, caller, out)
  }

  // What a finished module passes to the coroutine that required it.
  function RequireArgs(r: Result): seq<Value> {
    match r
    case Ok(values) => if values == [] || values[0] == NIL then [TRUE] else values
    case Failed(message) => [NIL, message]
    case Interrupted(_) => [NIL, INTERRUPTED_TEXT]
    case _ => [NIL, SHUTDOWN_TEXT]
  }

  function DeliverTop(s: State): State
    requires s.ctl != [] && s.ctl[|s.ctl| - 1].Deliver?
  {
    var Deliver(hd, r) := s.ctl[|s.ctl| - 1];
    var s1 := Settle(s.(ctl := s.ctl[..|s.ctl| - 1]), hd.id, r);
    if hd.RequireDone? then PushResume(s1, hd.caller, RequireArgs(r)) else s1
  }

  function Settle(s: State, id: HandlerId, r: Result): State {
    s.(hist := s.hist.(settled := s.hist.settled + [Settlement(id, r)],
                       place := s.hist.place[id := Settled(|s.hist.settled|)]))
  }

  // --- closures ---

  function Dequeue(s: State, t: nat): State {
    s.(exec := s.exec.(queue := s.exec.queue - {t}))
  }

  function ParkedAt(lua: Lua, co: Co): Location {
    if SuspendedAt(lua, co) then lua.cos[co].st.loc else 0
  }

  function InterruptedItem(s: State, co: Co): Ctl
    requires co in s.completions
  {
    Deliver(s.completions[co], Interrupted(ParkedAt(s.lua, co)))
  }

  function InterruptedItems(s: State, order: seq<Co>): seq<Ctl>
    requires forall co | co in order :: co in s.completions
  {
    seq(|order|, i requires 0 <= i < |order| => InterruptedItem(s, order[i]))
  }

  // `coOrder` and `handlerOrder` are the orders in which the active coroutines and the
  // completions are walked; the last handler pushed is the first one run.
  function RunInterruptPass(s: State, coOrder: seq<Co>, handlerOrder: seq<Co>): State
    requires Enumerates(coOrder, s.pool.active.Keys) && Enumerates(handlerOrder, s.completions.Keys)
  {
    if s.shuttingDown then s else
    var s1 := CancelAll(s.(completions := map[], pending := map[], pins := s.pins - s.pending.Keys));
    s1.(lua := ResetAll(s1.lua, s.pool.active.Keys),
        pool := PoolReleaseAll(s.pool, coOrder),
        ctl := s.ctl + InterruptedItems(s, handlerOrder),
        hist := s.hist.(place := PlacesAfterSwap(s.hist.place, |s.ctl|, handlerOrder)))
  }

  function PlacesAfterSwap(place: map<HandlerId, Place>, base: nat, order: seq<Co>): map<HandlerId, Place> {
    map id | id in place ::
      var p := place[id];
      if p.AtCo? && p.co in order then OnStack(base + IndexOf(order, p.co)) else p
  }

  function RunTask(s: State, t: nat, spare: Slot, loads: bool): State
    requires t in s.exec.queue && s.exec.queue[t].Task?
  {
    var Task(kind, id) := s.exec.queue[t];
    var s1 := Dequeue(s, t);
    if s.shuttingDown || s.interrupted then PushDeliver(s1, TaskPromise(id), Rejected)
    else if kind.LoadScript? && !loads then PushDeliver(LoadOnly(s1, spare), TaskPromise(id), LoadError)
    else
      var s2 := Enter(s1, spare, AfterTask(id));
      s2.(hist := s2.hist.(place := s2.hist.place[id := OnStack(|s.ctl|)]))
  }

  function RunRequire(s: State, caller: Handle, spare: Slot, loads: bool, message: Value): State {
    if s.shuttingDown || s.interrupted then s
    else if !loads then PushResume(LoadOnly(s, spare), caller, [NIL, message])
    else Enter(s, spare, AfterRequire(caller))
  }

  function RunLoadFile(s: State, caller: Handle, spare: Slot, args: seq<Value>): State {
    if s.shuttingDown || s.interrupted then s else PushResume(LoadOnly(s, spare), caller, args)
  }

  function RunSleepExpiry(s: State, h: Handle): State {
    if h !in s.timers.active then s else
    var s1 := s.(timers := s.timers.(active := s.timers.active - {h}));
    if s.paused then ArmSleep(s1, h) else DoResume(s1, h, [])
  }

  function RunTimeoutExpiry(s: State, h: Handle, fn: Ref, spare: Slot): State {
    if h !in s.timers.active then s else
    var s1 := s.(timers := s.timers.(active := s.timers.active - {h}, fired := s.timers.fired + multiset{h}));
    var s2 := Acquire(s1, spare);
    PushFrame(s2.(lua := Unref(s2.lua, fn)), AcquiredCo(s.pool, spare), AfterTimeout)
  }

  // --- host and other threads ---

  function PushTask(s: State, kind: TaskKind): State {
    var id := s.hist.nextId;
    var s1 := NewHandlerId(s);
    if s.shuttingDown || s.interrupted then Settle(s1, id, Rejected)
    else
      s1.(exec := Schedule(s1.exec, Task(kind, id)),
          hist := s1.hist.(place := s1.hist.place[id := Queued(s1.exec.nextTicket)]))
  }

  function PushGated(s: State, c: Closure): State {
    if s.shuttingDown || s.interrupted then s else s.(exec := Schedule(s.exec, c))
  }

  function Interrupt(s: State): State {
    if s.shuttingDown || s.interrupted then s
    else s.(interrupted := true, exec := Schedule(s.exec, InterruptPass))
  }

  function HostCall(s: State, spare: Slot): State {
    var id := s.hist.nextId;
    var s1 := Enter(NewHandlerId(s), spare, AfterCall(id));
    s1.(hist := s1.hist.(place := s1.hist.place[id := OnStack(|s.ctl|)]))
  }

  function CancelCall(s: State, co: Co): State {
    var s1 := if co in s.completions then
                s.(completions := s.completions - {co},
                   hist := s.hist.(cancelled := s.hist.cancelled + {s.completions[co].id},
                                   place := s.hist.place[s.completions[co].id := Cancelled]))
              else s;
    Release(Purge(s1, co), co)
  }

  function ShutdownSettlements(s: State, order: seq<Co>): seq<Settlement>
    requires forall co | co in order :: co in s.completions
  {
    seq(|order|, i requires 0 <= i < |order| =>
      Settlement(s.completions[order[i]].id, ShutDown(ParkedAt(s.lua, order[i]))))
  }

  function PlacesAfterShutdown(place: map<HandlerId, Place>, base: nat, order: seq<Co>): map<HandlerId, Place> {
    map id | id in place ::
      var p := place[id];
      if p.AtCo? && p.co in order then Settled(base + IndexOf(order, p.co)) else p
  }

  function PoolRefs(pool: Pool): set<Ref> {
    (set co | co in pool.active :: pool.active[co]) + (set i | 0 <= i < |pool.idle| :: pool.idle[i].ref)
  }

  function PoolOwners(pool: Pool): set<Owner> {
    (set co | co in pool.active :: PoolCo(co)) + (set i | 0 <= i < |pool.idle| :: PoolCo(pool.idle[i].co))
  }

  // CoroutinePool::Shutdown: every thread loses its registry anchor and is left to the collector.
  function PoolShutdownLua(lua: Lua, pool: Pool): Lua {
    lua.(cos := map co | co in lua.cos && lua.cos[co].kind.Script? :: lua.cos[co],
         registry := lua.registry - PoolRefs(pool),
         freed := lua.freed + multiset(PoolOwners(pool)))
  }

  function Shutdown(s: State, order: seq<Co>): State
    requires Enumerates(order, s.completions.Keys)
  {
    if s.shuttingDown then s else
    var s1 := s.(shuttingDown := true, completions := map[], pending := map[], pins := map[],
                 hist := s.hist.(settled := s.hist.settled + ShutdownSettlements(s, order),
                                 place := PlacesAfterShutdown(s.hist.place, |s.hist.settled|, order)));
    var s2 := CancelAll(s1);
    s2.(lua := PoolShutdownLua(s2.lua, s.pool), pool := Pool(map[], []), closed := true)
  }
}
