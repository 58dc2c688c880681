/** What every step of the runtime keeps. */
module SchedulerInvariant {
  import opened SchedulerState
  import opened Wrappers
  import opened SchedulerSteps

  // --- coroutine pool ---

  predicate InIdle(idle: seq<Slot>, co: Co) {
    exists i | 0 <= i < |idle| :: idle[i].co == co
  }

  ghost predicate IdleInv(s: State) {
    && (forall i | 0 <= i < |s.pool.idle| ::
          var slot := s.pool.idle[i];
          slot.co in s.lua.cos && s.lua.cos[slot.co].kind == Pooled(slot.ref) && s.lua.cos[slot.co].st.Fresh?)
    && (forall i, j | 0 <= i < j < |s.pool.idle| :: s.pool.idle[i].co != s.pool.idle[j].co)
  }

  ghost predicate ActiveInv(s: State) {
    && (forall co | co in s.pool.active ::
          && co in s.lua.cos && s.lua.cos[co].kind == Pooled(s.pool.active[co])
          && (s.lua.cos[co].st.Running? || s.lua.cos[co].st.Suspended?))
    && (forall co | co in s.lua.cos && s.lua.cos[co].kind.Pooled? ::
          if s.lua.cos[co].st.Fresh? then InIdle(s.pool.idle, co) else co in s.pool.active)
  }

  // Every pool coroutine keeps the registry slot it was created with.
  ghost predicate HomeInv(s: State) {
    && (forall co | co in s.lua.cos && s.lua.cos[co].kind.Pooled? ::
          && s.lua.cos[co].kind.ref in s.lua.registry
          && s.lua.registry[s.lua.cos[co].kind.ref] == PoolCo(co))
    && (forall r | r in s.lua.registry && s.lua.registry[r].PoolCo? ::
          s.lua.registry[r].co in s.lua.cos && s.lua.cos[s.lua.registry[r].co].kind == Pooled(r))
    && (forall co: Co :: s.lua.freed[PoolCo(co)] <= if s.closed then 1 else 0)
  }

  ghost predicate PoolInv(s: State) {
    IdleInv(s) && ActiveInv(s) && HomeInv(s)
  }

  // --- call stack ---

  predicate FirstRun(a: After) {
    a.AfterTask? || a.AfterCall? || a.AfterRequire? || a.AfterTimeout?
  }

  ghost predicate CtlInv(s: State) {
    && (forall i | 0 <= i < |s.ctl| && s.ctl[i].Frame? ::
          && s.ctl[i].co in s.lua.cos && s.lua.cos[s.ctl[i].co].st == Running(i)
          && (FirstRun(s.ctl[i].after) ==>
                s.lua.cos[s.ctl[i].co].kind.Pooled? && s.ctl[i].co !in s.completions)
          && (s.ctl[i].after.ByScript? ==> s.lua.cos[s.ctl[i].co].kind.Script?))
    && (forall co | co in s.lua.cos && s.lua.cos[co].st.Running? ::
          var i := s.lua.cos[co].st.at; i < |s.ctl| && s.ctl[i].Frame? && s.ctl[i].co == co)
    && (forall co | co in s.lua.cos :: s.lua.cos[co].epoch < s.lua.nextEpoch)
  }

  ghost predicate ClosedInv(s: State) {
    s.closed ==>
      && s.shuttingDown && s.pending == map[] && s.completions == map[] && s.timers.active == map[]
      && s.pool == Pool(map[], [])
      && forall i | 0 <= i < |s.ctl| :: s.ctl[i].Deliver?
  }

  // --- pending handles ---

  // The handle's coroutine is the one that obtained it, and it exists. A coroutine of a
  // script is also still in the same use; one of the pool need not be.
  predicate Owned(s: State, h: Handle)
    requires h in s.pending
  {
    var co := s.pending[h];
    && h in s.hist.issued && s.hist.issued[h].co == co && co in s.lua.cos
    && (s.lua.cos[co].kind.Script? ==> s.lua.cos[co].epoch == s.hist.issued[h].epoch)
  }

  ghost predicate PendInv(s: State) {
    && s.pins == s.pending
    && 1 <= s.timers.next
    && (forall h | h in s.pending :: Owned(s, h))
    && (forall h | h in s.hist.issued :: 1 <= h < s.timers.next && s.hist.issued[h].epoch < s.lua.nextEpoch)
  }

  // --- timers ---

  function TimerClosure(h: Handle, t: ActiveTimer): Closure {
    if t.Sleep? then SleepExpiry(h) else TimeoutExpiry(h, t.fn)
  }

  predicate ForTimer(c: Closure) {
    c.SleepExpiry? || c.TimeoutExpiry?
  }

  ghost predicate ArmedInv(s: State) {
    && (forall h | h in s.timers.active ::
          && 1 <= h < s.timers.next && h in s.timers.armed && s.timers.armed[h] in s.exec.queue
          && s.exec.queue[s.timers.armed[h]] == TimerClosure(h, s.timers.active[h]))
    && (forall h | h in s.timers.armed :: h < s.timers.next)
    && (forall t | t in s.exec.queue && ForTimer(s.exec.queue[t]) ::
          s.exec.queue[t].h in s.timers.armed && s.timers.armed[s.exec.queue[t].h] == t)
    && (forall t | t in s.exec.queue :: t < s.exec.nextTicket)
  }

  ghost predicate TimerInv(s: State) {
    && (forall h | h in s.timers.active ::
          match s.timers.active[h]
          case Sleep => h in s.pending && h in s.hist.issued && s.hist.issued[h].sleep
          case SetTimeout(fn) => h in s.timers.timeouts && fn in s.lua.registry && s.lua.registry[fn] == TimerFn(h))
    && (forall r | r in s.lua.registry && s.lua.registry[r].TimerFn? ::
          s.lua.registry[r].handle in s.timers.active && s.timers.active[s.lua.registry[r].handle] == SetTimeout(r))
    && (forall h | h in s.timers.timeouts :: 1 <= h < s.timers.next && h !in s.hist.issued)
    && (forall h: Handle :: s.lua.freed[TimerFn(h)] ==
          if h in s.timers.timeouts && h !in s.timers.active then 1 else 0)
    && (forall h: Handle :: s.timers.fired[h] <= if h in s.timers.timeouts && h !in s.timers.active then 1 else 0)
  }

  // --- completion handlers ---

  function HandlerIn(c: Ctl): Option<HandlerId> {
    match c
    case Deliver(hd, _) => Some(hd.id)
    case Frame(_, AfterTask(i)) => Some(i)
    case Frame(_, AfterCall(i)) => Some(i)
    case _ => None
  }

  // The tables in which a handler can be.
  datatype Tables = Tables(
    queue: map<nat, Closure>, ctl: seq<Ctl>, completions: map<Co, Handler>,
    cancelled: set<HandlerId>, settled: seq<Settlement>)

  function TablesOf(s: State): Tables {
    Tables(s.exec.queue, s.ctl, s.completions, s.hist.cancelled, s.hist.settled)
  }

  predicate Holds(v: Tables, p: Place, id: HandlerId) {
    match p
    case Queued(t) => t in v.queue && v.queue[t].Task? && v.queue[t].id == id
    case OnStack(i) => i < |v.ctl| && HandlerIn(v.ctl[i]) == Some(id)
    case AtCo(co) => co in v.completions && v.completions[co].id == id
    case Cancelled => id in v.cancelled
    case Settled(i) => i < |v.settled| && v.settled[i].id == id
  }

  ghost predicate Placed(v: Tables, place: map<HandlerId, Place>, next: HandlerId) {
    && (forall p: Place, id: HandlerId :: Holds(v, p, id) <==> id in place && place[id] == p)
    && (forall id: HandlerId :: id in place <==> id < next)
  }

  // Every submitted handler is in one place and in one place only.
  ghost predicate PlaceInv(s: State) {
    Placed(TablesOf(s), s.hist.place, s.hist.nextId)
  }

  ghost predicate KeyInv(s: State) {
    forall co | co in s.completions ::
      co in s.lua.cos && s.lua.cos[co].kind.Pooled? && !s.lua.cos[co].st.Fresh?
  }

  ghost predicate CallerInv(s: State) {
    && (forall t | t in s.exec.queue ::
          match s.exec.queue[t]
          case Resume(h, _) => AsyncHandle(s, h)
          case RequireRun(h) => AsyncHandle(s, h)
          case LoadFileRun(h) => AsyncHandle(s, h)
          case _ => true)
    && (forall i | 0 <= i < |s.ctl| ::
          match s.ctl[i]
          case Deliver(RequireDone(_, h), _) => AsyncHandle(s, h)
          case Frame(_, AfterRequire(h)) => AsyncHandle(s, h)
          case _ => true)
    && (forall co | co in s.completions ::
          s.completions[co].RequireDone? ==> AsyncHandle(s, s.completions[co].caller))
  }

  // --- history of resumptions ---

  ghost predicate ResumeInv(s: State) {
    && (forall i | 0 <= i < |s.hist.resumes| ::
          var r := s.hist.resumes[i];
          && r.h in s.hist.issued && r.h !in s.pending
          && s.hist.issued[r.h].co == r.co)
    && (forall i, j | 0 <= i < j < |s.hist.resumes| :: s.hist.resumes[i].h != s.hist.resumes[j].h)
  }

  // --- all of it, in the clusters the proofs work with ---

  ghost predicate Machine(s: State) {
    PoolInv(s) && CtlInv(s) && KeyInv(s) && ClosedInv(s)
  }

  ghost predicate Handles(s: State) {
    PendInv(s) && ResumeInv(s) && CallerInv(s)
  }

  ghost predicate Timing(s: State) {
    ArmedInv(s) && TimerInv(s)
  }

  ghost predicate Core(s: State) {
    Machine(s) && Handles(s) && Timing(s)
  }

  ghost predicate Inv(s: State) {
    Core(s) && PlaceInv(s)
  }
}
