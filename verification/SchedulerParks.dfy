/**
 Which yield a resume reaches. A handle is obtained for the yield that follows at once. The
 two can come apart: an operation that may not yield raises instead, and its handle stays.
 */
module SchedulerParks {
  import opened SchedulerState
  import opened SchedulerSteps
  import opened SchedulerInvariant
  import opened SchedulerKeeps
  import opened SchedulerProgress
  import opened SchedulerUses
  import opened SchedulerLogs
  import opened SchedulerRuns
  import opened SchedulerPending
  import opened SchedulerCheckouts

  // --- whose yield it is ---

  // `latest`: the handle a running coroutine obtained by its very last instruction.
  // `standing`: the handle that the last yield of a coroutine was made for.
  datatype Watch = Watch(latest: map<Co, Handle>, standing: map<Co, Handle>)

  // An instruction of the script on top, other than an operation that parks it.
  predicate OfScript(step: Step) {
    || step.ScriptSetTimeout? || step.ScriptClearTimeout? || step.ScriptCreate?
    || step.ScriptResume? || step.ScriptClose? || step.ScriptRuns?
  }

  function Watched(w: Watch, s: State, step: Step): Watch {
    if !ScriptOnTop(s) then w else
    var co := Top(s);
    match step
    case ScriptPark(_) => w.(latest := w.latest[co := s.timers.next])
    case ScriptEnd(out) =>
      Watch(w.latest - {co},
            if out.Yielded? && co in w.latest then w.standing[co := w.latest[co]] else w.standing - {co})
    case _ => if OfScript(step) then w.(latest := w.latest - {co}) else w
  }

  ghost function WatchAt(r: Run, n: nat): Watch
    requires |r.states| == |r.steps| + 1 && n <= |r.steps|
  {
    if n == 0 then Watch(map[], map[]) else Watched(WatchAt(r, n - 1), r.states[n - 1], r.steps[n - 1])
  }

  predicate Stands(w: Watch, co: Co, h: Handle) {
    co in w.standing && w.standing[co] == h
  }

  // --- a coroutine that goes on without its handle ---

  // The step resumes this suspended coroutine for one of its handles.
  predicate WakesCo(s: State, step: Step, co: Co) {
    && SuspendedAt(s.lua, co) && step.RunClosure? && step.t in s.exec.queue
    && match s.exec.queue[step.t]
       case Resume(w, _) => WokenBy(s, step, w) && s.pending[w] == co
       case SleepExpiry(w) => WokenBy(s, step, w) && s.pending[w] == co
       case _ => false
  }

  // The script executes something else, or is resumed by something else, with the handle pending.
  predicate GoesOnWithout(s: State, step: Step, h: Handle) {
    && h in s.pending
    && var co := s.pending[h];
       || (ScriptOnTop(s) && Top(s) == co && (step.ScriptPark? || OfScript(step)))
       || step == ScriptResume(co)
       || (WakesCo(s, step, co) && s.exec.queue[step.t].h != h)
  }

  predicate WentOn(r: Run, n: nat, h: Handle)
    requires |r.states| == |r.steps| + 1 && n <= |r.steps|
  {
    exists i | 0 <= i < n :: GoesOnWithout(r.states[i], r.steps[i], h)
  }

  lemma WentOnNext(r: Run, n: nat, h: Handle)
    requires |r.states| == |r.steps| + 1 && 0 < n <= |r.steps|
    ensures WentOn(r, n, h) <==> WentOn(r, n - 1, h) || GoesOnWithout(r.states[n - 1], r.steps[n - 1], h)
  {
    hide GoesOnWithout;
    if WentOn(r, n, h) {
      var i :| 0 <= i < n && GoesOnWithout(r.states[i], r.steps[i], h);
      assert i < n - 1 || i == n - 1;
    }
  }

  // --- what a step does to the status of a coroutine ---

  type Cos = map<Co, CoRec>

  predicate Runs(cos: Cos, co: Co) {
    co in cos && cos[co].st.Running?
  }

  predicate Sleeps(cos: Cos, co: Co) {
    co in cos && cos[co].st.Suspended?
  }

  // A coroutine that the pool may hand out.
  predicate NotOut(cos: Cos, co: Co) {
    co !in cos || (cos[co].kind.Pooled? && cos[co].st.Fresh?)
  }

  predicate Ends(s: State, step: Step, co: Co) {
    step.ScriptEnd? && ScriptOnTop(s) && Top(s) == co
  }

  predicate Moves(s: State, step: Step, cos1: Cos, co: Co) {
    && (Runs(s.lua.cos, co) ==> (Runs(cos1, co) <==> !Ends(s, step, co)))
    && (Runs(cos1, co) && !Runs(s.lua.cos, co) ==>
          step == ScriptResume(co) || WakesCo(s, step, co) || NotOut(s.lua.cos, co))
    && (step == ScriptResume(co) || WakesCo(s, step, co) ==> Runs(cos1, co))
    && (Sleeps(cos1, co) ==>
          if Sleeps(s.lua.cos, co) then cos1[co].st == s.lua.cos[co].st
          else Ends(s, step, co) && step.out.Yielded? && cos1[co].st == Suspended(step.out.loc))
  }

  // Nobody runs between closures.
  lemma NobodyRuns(s: State, co: Co)
    requires Core(s) && s.ctl == []
    ensures !Runs(s.lua.cos, co)
  {
    Split(s);
    hide Core, Machine, Handles, Timing, PoolInv, KeyInv, ClosedInv, PendInv, ResumeInv, CallerInv, ArmedInv, TimerInv;
  }

  // What becomes of a coroutine, if no script ends or is resumed.
  predicate Handed(cos: Cos, cos1: Cos, co: Co) {
    && (Runs(cos, co) ==> Runs(cos1, co))
    && (Runs(cos1, co) && !Runs(cos, co) ==> NotOut(cos, co))
    && (Sleeps(cos1, co) ==> Sleeps(cos, co) && cos1[co].st == cos[co].st)
  }

  lemma HandedMoves(s: State, step: Step, cos1: Cos, co: Co)
    requires Handed(s.lua.cos, cos1, co) && !Ends(s, step, co) && !WakesCo(s, step, co) && step != ScriptResume(co)
    ensures Moves(s, step, cos1, co)
  {
    hide WakesCo, NotOut;
  }

  lemma AcquireHands(s: State, spare: Slot, co: Co)
    requires SpareKnown(s, spare)
    ensures Handed(s.lua.cos, Acquire(s, spare).lua.cos, co) && Handed(s.lua.cos, LoadOnly(s, spare).lua.cos, co)
  {
    LoadOnlyIsAlike(s, spare);
    hide LoadOnly;
  }

  lemma EnterHands(s: State, spare: Slot, after: After, co: Co)
    requires SpareKnown(s, spare)
    ensures Handed(s.lua.cos, Enter(s, spare, after).lua.cos, co)
  {}

  lemma TaskHands(s: State, t: nat, spare: Slot, loads: bool, co: Co)
    requires t in s.exec.queue && s.exec.queue[t].Task? && SpareKnown(s, spare)
    ensures Handed(s.lua.cos, RunTask(s, t, spare, loads).lua.cos, co)
  {
    var s1 := Dequeue(s, t);
    hide Enter, LoadOnly, Handed;
    assert Handed(s.lua.cos, s.lua.cos, co) by { StaysHanded(s.lua.cos, co); }
    EnterHands(s1, spare, AfterTask(s.exec.queue[t].id), co);
    AcquireHands(s1, spare, co);
    hide SpareKnown;
  }

  lemma StaysHanded(cos: Cos, co: Co)
    ensures Handed(cos, cos, co)
  {}

  lemma RequireHands(s: State, caller: Handle, spare: Slot, loads: bool, message: Value, args: seq<Value>, co: Co)
    requires SpareKnown(s, spare)
    ensures Handed(s.lua.cos, RunRequire(s, caller, spare, loads, message).lua.cos, co)
    ensures Handed(s.lua.cos, RunLoadFile(s, caller, spare, args).lua.cos, co)
  {
    hide Enter, LoadOnly, Handed, Schedule;
    StaysHanded(s.lua.cos, co);
    EnterHands(s, spare, AfterRequire(caller), co);
    AcquireHands(s, spare, co);
    hide SpareKnown;
  }

  lemma TimeoutHands(s: State, h: Handle, fn: Ref, spare: Slot, co: Co)
    requires SpareKnown(s, spare)
    ensures Handed(s.lua.cos, RunTimeoutExpiry(s, h, fn, spare).lua.cos, co)
  {
    StaysHanded(s.lua.cos, co);
    EnterHands(s, spare, AfterTimeout, co);
    assert h in s.timers.active ==>
      RunTimeoutExpiry(s, h, fn, spare).lua.cos == Enter(s, spare, AfterTimeout).lua.cos by {
      TimeoutCos(s, h, fn, spare);
    }
    assert h !in s.timers.active ==> RunTimeoutExpiry(s, h, fn, spare) == s;
    hide RunTimeoutExpiry, Enter, Handed, SpareKnown;
  }

  lemma TimeoutCos(s: State, h: Handle, fn: Ref, spare: Slot)
    ensures h in s.timers.active ==>
              RunTimeoutExpiry(s, h, fn, spare).lua.cos == Enter(s, spare, AfterTimeout).lua.cos
  {
    hide LuaAcquire, PoolAcquire;
  }

  lemma PassHands(s: State, a: seq<Co>, b: seq<Co>, co: Co)
    requires Enumerates(a, s.pool.active.Keys) && Enumerates(b, s.completions.Keys) && !Runs(s.lua.cos, co)
    ensures Handed(s.lua.cos, RunInterruptPass(s, a, b).lua.cos, co)
  {
    hide PoolReleaseAll, InterruptedItems, PlacesAfterSwap;
  }

  lemma DismissedCos(s: State, co: Co)
    ensures Release(Purge(s, co), co).lua == if co in s.pool.active then SetSt(s.lua, co, Fresh) else s.lua
  {
    hide HandlesOf, PoolRelease, SetSt;
  }

  lemma DoResumeLua(s: State, w: Handle, args: seq<Value>)
    ensures DoResume(s, w, args).lua ==
              if w !in s.pending then s.lua
              else if SuspendedAt(s.lua, s.pending[w]) then SetSt(s.lua, s.pending[w], Running(|s.ctl|))
              else if s.pending[w] in s.pool.active then SetSt(s.lua, s.pending[w], Fresh)
              else s.lua
  {
    if w in s.pending && !SuspendedAt(s.lua, s.pending[w]) {
      DismissedCos(Record(s.(pins := s.pins - {w}, pending := s.pending - {w}), NotResumable(w)), s.pending[w]);
    }
    hide Purge, Release, SetSt, SuspendedAt;
  }

  lemma DoResumeMoves(s: State, w: Handle, args: seq<Value>, co: Co)
    requires !Runs(s.lua.cos, co)
    ensures var cos1 := DoResume(s, w, args).lua.cos;
            && (Runs(cos1, co) <==> w in s.pending && s.pending[w] == co && SuspendedAt(s.lua, co))
            && (Sleeps(cos1, co) ==> Sleeps(s.lua.cos, co) && cos1[co].st == s.lua.cos[co].st)
  {
    DoResumeLua(s, w, args);
    hide DoResume;
  }

  lemma WakeMoves(s: State, t: nat, ch: Choice, co: Co)
    requires Enabled(s, RunClosure(t, ch)) && (s.exec.queue[t].Resume? || s.exec.queue[t].SleepExpiry?)
    requires !Runs(s.lua.cos, co)
    ensures Moves(s, RunClosure(t, ch), ApplyClosure(s, t, ch).lua.cos, co)
  {
    var s1, w := Dequeue(s, t), s.exec.queue[t].h;
    hide DoResume;
    if s.exec.queue[t].Resume? {
      DoResumeMoves(s1, w, s.exec.queue[t].args, co);
    } else {
      DoResumeMoves(s1.(timers := s1.timers.(active := s1.timers.active - {w})), w, [], co);
    }
  }

  lemma ClosureHands(s: State, t: nat, ch: Choice, co: Co)
    requires Enabled(s, RunClosure(t, ch)) && SpareKnown(s, ch.spare) && !Runs(s.lua.cos, co)
    requires !s.exec.queue[t].Resume? && !s.exec.queue[t].SleepExpiry?
    ensures Handed(s.lua.cos, ApplyClosure(s, t, ch).lua.cos, co)
  {
    var s1 := Dequeue(s, t);
    assert SpareKnown(s1, ch.spare) && s1.lua == s.lua;
    hide RunTask, DoResume, RunRequire, RunLoadFile, RunInterruptPass, RunSleepExpiry, RunTimeoutExpiry;
    hide Handed, SpareKnown;
    match s.exec.queue[t] {
      case Task(_, _) => TaskHands(s, t, ch.spare, ch.loads, co);
      case RequireRun(caller) =>
        RequireHands(s1, caller, ch.spare, ch.loads, if ch.args == [] then 0 else ch.args[0], [], co);
      case LoadFileRun(caller) => RequireHands(s1, caller, ch.spare, ch.loads, 0, ch.args, co);
      case InterruptPass => PassHands(s1, ch.coOrder, ch.handlerOrder, co);
      case ClearFlag => StaysHanded(s.lua.cos, co);
      case TimeoutExpiry(h, fn) => TimeoutHands(s1, h, fn, ch.spare, co);
    }
  }

  lemma ClosureMoves(s: State, t: nat, ch: Choice, co: Co)
    requires Core(s) && Enabled(s, RunClosure(t, ch))
    ensures Moves(s, RunClosure(t, ch), ApplyClosure(s, t, ch).lua.cos, co)
  {
    NobodyRuns(s, co);
    SpareIsKnown(s, ch.spare);
    hide Core, ApplyClosure, Moves, SpareKnown, Handed;
    if s.exec.queue[t].Resume? || s.exec.queue[t].SleepExpiry? {
      WakeMoves(s, t, ch, co);
    } else {
      ClosureHands(s, t, ch, co);
      HandedMoves(s, RunClosure(t, ch), ApplyClosure(s, t, ch).lua.cos, co);
    }
  }

  // --- the end of a script ---

  // The coroutine is reset if it ended and is checked out.
  predicate LuaAfter(lua: Lua, lua1: Lua, co: Co, back: bool) {
    lua1 == lua || (back && lua1 == SetSt(lua, co, Fresh))
  }

  lemma ReleaseLua(s: State, co: Co)
    ensures Release(s, co).lua == if co in s.pool.active then SetSt(s.lua, co, Fresh) else s.lua
  {
    hide SetSt, PoolRelease;
  }

  lemma RecycleLua(s: State, co: Co, out: Outcome)
    requires !out.Yielded?
    ensures LuaAfter(s.lua, Recycle(s, co, out).lua, co, co in s.pool.active)
  {
    var s1 := Purge(s, co);
    assert s1.lua == s.lua && s1.pool == s.pool by { hide HandlesOf; }
    ReleaseLua(s1, co);
    ReleaseLua(s1.(completions := s1.completions - {co}), co);
    hide Release, Purge, SetSt;
  }

  lemma ReturnLua(s: State, co: Co, id: HandlerId, caller: Handle, out: Outcome)
    ensures LuaAfter(s.lua, TaskReturned(s, co, id, out).lua, co, !out.Yielded? && co in s.pool.active)
    ensures LuaAfter(s.lua, ResumeReturned(s, co, out).lua, co, !out.Yielded? && co in s.pool.active)
    ensures LuaAfter(s.lua, CallReturned(s, co, id, out).lua, co, !out.Yielded? && co in s.pool.active)
    ensures LuaAfter(s.lua, RequireReturned(s, co, caller, out).lua, co, !out.Yielded? && co in s.pool.active)
  {
    hide Recycle, Release, Schedule, HandlesOf, SetSt;
    if !out.Yielded? {
      RecycleLua(s, co, out);
      RecycleLua(PutHandler(s, co, TaskPromise(id)), co, out);
      DismissedCos(s, co);
      ReleaseLua(PushResume(s, caller, RequireArgs(ResultOf(out))), co);
    }
  }

  lemma EndLua(s: State, co: Co, after: After, out: Outcome)
    requires s.ctl != [] && s.ctl[|s.ctl| - 1] == Frame(co, after)
    ensures LuaAfter(PopFrame(s, out).lua, EndScript(s, out).lua, co, !out.Yielded? && co in s.pool.active)
  {
    var s0 := PopFrame(s, out);
    EndIs(s, out);
    assert s0.pool == s.pool by { hide SetSt; }
    hide EndScript, TaskReturned, ResumeReturned, CallReturned, RequireReturned, PopFrame, LuaAfter;
    match after {
      case AfterTask(id) => ReturnLua(s0, co, id, 0, out);
      case AfterCall(id) => ReturnLua(s0, co, id, 0, out);
      case AfterRequire(caller) => ReturnLua(s0, co, 0, caller, out);
      case _ => ReturnLua(s0, co, 0, 0, out);
    }
  }

  // One coroutine, when the one on top ends or yields.
  lemma EndCos(lua: Lua, lua1: Lua, top: Co, out: Outcome, back: bool, co: Co)
    requires top in lua.cos
    requires LuaAfter(SetSt(lua, top, if out.Yielded? then Suspended(out.loc) else Dead), lua1, top, back)
    requires out.Yielded? ==> !back
    ensures lua1.cos.Keys == lua.cos.Keys
    ensures co in lua.cos ==>
              if co != top then lua1.cos[co] == lua.cos[co]
              else if out.Yielded? then lua1.cos[co] == lua.cos[co].(st := Suspended(out.loc))
              else lua1.cos[co] == lua.cos[co].(st := Dead) || (back && lua1.cos[co] == lua.cos[co].(st := Fresh))
  {}

  lemma EndMoves(s: State, out: Outcome, co: Co)
    requires TopKnown(s)
    ensures Moves(s, ScriptEnd(out), EndScript(s, out).lua.cos, co)
  {
    EndLua(s, Top(s), s.ctl[|s.ctl| - 1].after, out);
    assert !WakesCo(s, ScriptEnd(out), co);
    hide EndScript, WakesCo, LuaAfter, SetSt;
    EndCos(s.lua, EndScript(s, out).lua, Top(s), out, !out.Yielded? && Top(s) in s.pool.active, co);
    hide PopFrame;
  }

  // --- every step ---

  lemma PostedCos(s: State, step: Step)
    requires Enabled(s, step) && (Posted(step) || step.RunHandler? || step.ScriptRuns?)
    ensures Apply(s, step).lua.cos == s.lua.cos
  {
    if Posted(step) { PostedIsAlike(s, step); }
    if step.RunHandler? { DeliverIsAlike(s); }
    hide DeliverTop, ApplyClosure, EndScript, HostCall, CancelCall, Shutdown, Park, SetSt, Schedule, CancelTimerLua;
    hide PushTask, Interrupt, PushResume, PushGated;
  }

  lemma ParkCos(s: State, co: Co, sleep: bool, fn: Ref, h: Handle)
    ensures Park(s, co, sleep).lua.cos == s.lua.cos && TimeoutSet(s, fn).lua.cos == s.lua.cos
    ensures CancelTimer(s, h).lua.cos == s.lua.cos
  {
    hide Schedule;
  }

  lemma SmallMoves(s: State, step: Step, co: Co)
    requires TopKnown(s) && Enabled(s, step) && FromScript(step) && !step.Collect?
    ensures Moves(s, step, Apply(s, step).lua.cos, co)
  {
    hide Schedule, EndScript, ApplyClosure, HostCall, CancelCall, Shutdown, DeliverTop, Park, Interrupt;
    hide TimeoutSet, CancelTimer;
    match step {
      case ScriptSetTimeout(fn) => ParkCos(s, co, false, fn, 0);
      case ScriptClearTimeout(h) => ParkCos(s, co, false, 0, h);
      case ScriptCreate(_) =>
      case ScriptResume(_) =>
      case ScriptClose(_) =>
      case ScriptRuns =>
    }
  }

  lemma HostCallHands(s: State, spare: Slot, co: Co)
    requires Core(s) && SpareSlot(s, spare)
    ensures Handed(s.lua.cos, HostCall(s, spare).lua.cos, co)
  {
    SpareIsKnown(s, spare);
    EnterHands(NewHandlerId(s), spare, AfterCall(s.hist.nextId), co);
    hide Core, Enter, Handed;
  }

  lemma CancelHands(s: State, c: Co, co: Co)
    requires SuspendedAt(s.lua, c)
    ensures Handed(s.lua.cos, CancelCall(s, c).lua.cos, co)
  {
    CancelLua(s, c);
    hide CancelCall;
  }

  lemma DownHands(s: State, order: seq<Co>, co: Co)
    requires Core(s) && Enabled(s, HostShutsDown(order))
    ensures Handed(s.lua.cos, Shutdown(s, order).lua.cos, co)
  {
    NobodyRuns(s, co);
    hide Core, ShutdownSettlements, PlacesAfterShutdown;
  }

  lemma HostHands(s: State, step: Step, co: Co)
    requires Core(s) && Enabled(s, step)
    requires step.HostCalls? || step.HostCancels? || step.HostShutsDown? || step.Collect?
    ensures Handed(s.lua.cos, Apply(s, step).lua.cos, co)
  {
    hide Core, HostCall, CancelCall, Shutdown, Handed;
    if step.HostCalls? {
      HostCallHands(s, step.spare, co);
    } else if step.HostCancels? {
      CancelHands(s, step.co, co);
    } else if step.HostShutsDown? {
      DownHands(s, step.order, co);
    } else {
      CollectHands(s.lua.cos, step.co, co);
    }
  }

  lemma CollectHands(cos: Cos, c: Co, co: Co)
    requires !Runs(cos, c)
    ensures Handed(cos, cos - {c}, co)
  {}

  lemma CancelLua(s: State, co: Co)
    ensures LuaAfter(s.lua, CancelCall(s, co).lua, co, co in s.pool.active)
  {
    var s1 := if co in s.completions then
                s.(completions := s.completions - {co},
                   hist := s.hist.(cancelled := s.hist.cancelled + {s.completions[co].id},
                                   place := s.hist.place[s.completions[co].id := Cancelled]))
              else s;
    DismissedCos(s1, co);
    hide Purge, Release, SetSt;
  }

  lemma StepMoves(s: State, step: Step, co: Co)
    requires Core(s) && Enabled(s, step)
    ensures Moves(s, step, Apply(s, step).lua.cos, co)
  {
    hide Core, Moves, Handed, TopKnown, WakesCo, Apply, Enabled;
    if step.RunClosure? {
      RunMoves(s, step, co);
    } else if OfScript(step) || step.ScriptPark? || step.ScriptEnd? {
      OnTopMoves(s, step, co);
    } else if Posted(step) || step.RunHandler? {
      PostedCos(s, step);
      SameMoves(s, step, Apply(s, step).lua.cos, co);
    } else {
      HostHands(s, step, co);
      HandMoves(s, step, Apply(s, step).lua.cos, co);
    }
  }

  lemma RunMoves(s: State, step: Step, co: Co)
    requires Core(s) && Enabled(s, step) && step.RunClosure?
    ensures Moves(s, step, Apply(s, step).lua.cos, co)
  {
    ClosureMoves(s, step.t, step.choice, co);
    hide Core, Moves, ApplyClosure;
  }

  lemma OnTopMoves(s: State, step: Step, co: Co)
    requires Core(s) && Enabled(s, step) && (OfScript(step) || step.ScriptPark? || step.ScriptEnd?)
    ensures Moves(s, step, Apply(s, step).lua.cos, co)
  {
    TopIsKnown(s);
    hide Core, Moves, TopKnown, EndScript, Park;
    if step.ScriptEnd? {
      EndMoves(s, step.out, co);
    } else if step.ScriptPark? {
      ParkCos(s, Top(s), step.sleep, 0, 0);
      SameMoves(s, step, Apply(s, step).lua.cos, co);
    } else {
      SmallMoves(s, step, co);
      hide Apply;
    }
  }

  lemma HandMoves(s: State, step: Step, cos1: Cos, co: Co)
    requires Handed(s.lua.cos, cos1, co) && !step.RunClosure? && !step.ScriptEnd? && !step.ScriptResume?
    ensures Moves(s, step, cos1, co)
  {
    HandedMoves(s, step, cos1, co);
    hide Handed, Moves;
  }

  lemma SameMoves(s: State, step: Step, cos1: Cos, co: Co)
    requires cos1 == s.lua.cos && !step.RunClosure? && !step.ScriptEnd? && !step.ScriptResume?
    ensures Moves(s, step, cos1, co)
  {
    StaysHanded(cos1, co);
    HandMoves(s, step, cos1, co);
    hide Handed, Moves;
  }

  // --- where a coroutine stands ---

  ghost function LastYield(r: Run, n: nat, co: Co): Location
    requires |r.states| == |r.steps| + 1 && n <= |r.steps|
  {
    if n == 0 then 0
    else if Ends(r.states[n - 1], r.steps[n - 1], co) && r.steps[n - 1].out.Yielded? then r.steps[n - 1].out.loc
    else LastYield(r, n - 1, co)
  }

  /** A suspended coroutine stands where it last yielded. */
  lemma {:induction false} StandsWhereItYielded(r: Run, n: nat, co: Co)
    requires ValidRun(r) && n <= |r.steps|
    ensures Sleeps(r.states[n].lua.cos, co) ==> r.states[n].lua.cos[co].st == Suspended(LastYield(r, n, co))
  {
    hide Inv, Apply, Enabled, WakesCo;
    if n > 0 {
      StandsWhereItYielded(r, n - 1, co);
      RunKeeps(r, n - 1);
      assert StepAt(r, n - 1);
      MovesInv(r.states[n - 1], r.steps[n - 1], co);
    }
  }

  lemma MovesInv(s: State, step: Step, co: Co)
    requires Inv(s) && Enabled(s, step)
    ensures Moves(s, step, Apply(s, step).lua.cos, co)
    ensures Ends(s, step, co) ==> Runs(s.lua.cos, co)
  {
    if ScriptOnTop(s) { TopIsKnown(s); }
    StepMoves(s, step, co);
    hide Core, PlaceInv, Moves, Apply, Enabled;
  }

  // --- whole runs ---

  // What the watch says of a pending handle: `good` if its yield is the one it waits for.
  predicate Tells(s: State, w: Watch, h: Handle, good: bool)
    requires h in s.pending
  {
    var co := s.pending[h];
    && (Runs(s.lua.cos, co) ==> ((co in w.latest && w.latest[co] == h) <==> good))
    && (Sleeps(s.lua.cos, co) ==> (Stands(w, co, h) <==> good))
  }

  // Only running coroutines have a latest handle.
  predicate WatchInv(s: State, w: Watch) {
    forall co <- w.latest :: Runs(s.lua.cos, co)
  }

  lemma WatchKeeps(s: State, step: Step, w: Watch)
    requires Inv(s) && Enabled(s, step) && WatchInv(s, w)
    ensures WatchInv(Apply(s, step), Watched(w, s, step))
  {
    if ScriptOnTop(s) { TopIsKnown(s); }
    hide Core, PlaceInv, Apply, Enabled;
    forall co <- Watched(w, s, step).latest ensures Runs(Apply(s, step).lua.cos, co) {
      StepMoves(s, step, co);
      LatestRuns(w, s, step, co);
    }
  }

  lemma LatestRuns(w: Watch, s: State, step: Step, co: Co)
    requires WatchInv(s, w) && co in Watched(w, s, step).latest && (ScriptOnTop(s) ==> TopKnown(s))
    ensures Runs(s.lua.cos, co) && !Ends(s, step, co)
  {}

  // A handle that stays pending: the facts the watch is followed with.
  predicate Follows(s: State, step: Step, s1: State, h: Handle) {
    && h in s.pending && h in s1.pending && s1.pending[h] == s.pending[h] && h != s.timers.next
    && h in s.hist.issued && h in s1.hist.issued && s.hist.issued[h].co == s.pending[h]
    && !WokenBy(s, step, h)
    && (Over(s, h) ==> Over(s1, h)) && (!Over(s, h) ==> (Over(s1, h) <==> LeavesBehind(s, step, h)))
    && Moves(s, step, s1.lua.cos, s.pending[h])
  }

  lemma StaysFollowed(s: State, step: Step, h: Handle)
    requires Inv(s) && Enabled(s, step) && h in s.pending && h in Apply(s, step).pending && Inv(Apply(s, step))
    ensures Follows(s, step, Apply(s, step), h)
  {
    PendingWasIssued(s, h);
    NextIsNotIssued(s);
    StepDecides(s, step, h);
    PendingWasIssued(Apply(s, step), h);
    PendingStep(s, step, h);
    StepMoves(s, step, s.pending[h]);
    hide Inv, Over, LeavesBehind, Moves, Apply, Enabled, WokenBy, PurgedBy;
  }

  lemma Elsewhere(w: Watch, s: State, step: Step, co: Co)
    requires !(ScriptOnTop(s) && Top(s) == co)
    ensures var w1 := Watched(w, s, step);
            && (co in w1.latest <==> co in w.latest) && (co in w.latest ==> w1.latest[co] == w.latest[co])
            && (co in w1.standing <==> co in w.standing) && (co in w.standing ==> w1.standing[co] == w.standing[co])
  {}

  // It runs before and after.
  lemma TellsRunning(s: State, step: Step, s1: State, w: Watch, h: Handle, went: bool)
    requires Follows(s, step, s1, h) && step != ScriptResume(s.pending[h]) && (ScriptOnTop(s) ==> TopKnown(s))
    requires Runs(s.lua.cos, s.pending[h]) && Runs(s1.lua.cos, s.pending[h])
    requires Tells(s, w, h, !went && !Over(s, h))
    ensures Tells(s1, Watched(w, s, step), h, !(went || GoesOnWithout(s, step, h)) && !Over(s1, h))
  {
    var co := s.pending[h];
    hide Over, WakesCo, TopKnown;
    if ScriptOnTop(s) && Top(s) == co {
      TellsOnTop(w, s, step, h);
      hide GoesOnWithout, Watched;
    } else {
      Elsewhere(w, s, step, co);
      hide Watched;
    }
  }

  // The script on top executes something: it parks, or it goes on.
  lemma TellsOnTop(w: Watch, s: State, step: Step, h: Handle)
    requires h in s.pending && h != s.timers.next && ScriptOnTop(s) && Top(s) == s.pending[h] && !step.ScriptEnd?
    requires !SuspendedAt(s.lua, Top(s)) && step != ScriptResume(Top(s))
    ensures var co, w1 := Top(s), Watched(w, s, step);
            if GoesOnWithout(s, step, h) then !(co in w1.latest && w1.latest[co] == h)
            else w1 == w
  {
    hide WakesCo;
    assert !WakesCo(s, step, Top(s)) by { NotWoken(s, step, Top(s)); }
  }

  lemma NotWoken(s: State, step: Step, co: Co)
    requires !SuspendedAt(s.lua, co)
    ensures !WakesCo(s, step, co)
  {}

  lemma TellsEntered(s: State, step: Step, s1: State, w: Watch, h: Handle, went: bool)
    requires Follows(s, step, s1, h) && WatchInv(s, w) && (ScriptOnTop(s) ==> TopKnown(s))
    requires !Runs(s.lua.cos, s.pending[h]) && Runs(s1.lua.cos, s.pending[h])
    ensures Tells(s1, Watched(w, s, step), h, !(went || GoesOnWithout(s, step, h)) && !Over(s1, h))
  {
    EnteredWithout(s, step, s1, h);
    Elsewhere(w, s, step, s.pending[h]);
    hide Over, GoesOnWithout, Watched;
  }

  lemma TellsAsleep(s: State, step: Step, s1: State, w: Watch, h: Handle, went: bool)
    requires Follows(s, step, s1, h) && (ScriptOnTop(s) ==> TopKnown(s))
    requires Sleeps(s.lua.cos, s.pending[h]) && Sleeps(s1.lua.cos, s.pending[h])
    requires Tells(s, w, h, !went && !Over(s, h))
    ensures Tells(s1, Watched(w, s, step), h, !(went || GoesOnWithout(s, step, h)) && !Over(s1, h))
  {
    Elsewhere(w, s, step, s.pending[h]);
    hide Over, Watched, WakesCo;
  }

  lemma TellsYielded(s: State, step: Step, s1: State, w: Watch, h: Handle, went: bool)
    requires Follows(s, step, s1, h) && (ScriptOnTop(s) ==> TopKnown(s))
    requires !Sleeps(s.lua.cos, s.pending[h]) && Sleeps(s1.lua.cos, s.pending[h])
    requires Tells(s, w, h, !went && !Over(s, h))
    ensures Tells(s1, Watched(w, s, step), h, !(went || GoesOnWithout(s, step, h)) && !Over(s1, h))
  {
    hide Over, WakesCo;
  }

  lemma TellsNext(s: State, step: Step, s1: State, w: Watch, h: Handle, went: bool)
    requires Enabled(s, step) && Follows(s, step, s1, h) && WatchInv(s, w) && (ScriptOnTop(s) ==> TopKnown(s))
    requires Tells(s, w, h, !went && !Over(s, h))
    ensures Tells(s1, Watched(w, s, step), h, !(went || GoesOnWithout(s, step, h)) && !Over(s1, h))
  {
    var co := s.pending[h];
    if Runs(s1.lua.cos, co) {
      if Runs(s.lua.cos, co) { TellsRunning(s, step, s1, w, h, went); } else { TellsEntered(s, step, s1, w, h, went); }
    } else if Sleeps(s1.lua.cos, co) {
      if Sleeps(s.lua.cos, co) { TellsAsleep(s, step, s1, w, h, went); } else { TellsYielded(s, step, s1, w, h, went); }
    }
    hide Over, GoesOnWithout, Watched, TopKnown, WatchInv, Moves, LeavesBehind;
  }

  // A coroutine that starts to run with the handle pending goes on without it.
  lemma EnteredWithout(s: State, step: Step, s1: State, h: Handle)
    requires Follows(s, step, s1, h) && Runs(s1.lua.cos, s.pending[h]) && !Runs(s.lua.cos, s.pending[h])
    ensures GoesOnWithout(s, step, h) || Over(s, h)
  {}

  lemma ParkTells(s: State, sleep: bool, w: Watch)
    requires TopKnown(s)
    ensures var s1, h := Park(s, Top(s), sleep), s.timers.next;
            h in s1.pending && Tells(s1, Watched(w, s, ScriptPark(sleep)), h, true)
  {
    ParkPends(s, Top(s), sleep);
    hide Park;
  }

  lemma ParkPends(s: State, co: Co, sleep: bool)
    ensures var s1, h := Park(s, co, sleep), s.timers.next;
            h in s1.pending && s1.pending[h] == co && s1.lua == s.lua
  {
    hide Schedule;
  }

  lemma WentOnIssued(s: State, step: Step, h: Handle)
    requires Inv(s) && GoesOnWithout(s, step, h)
    ensures h in s.hist.issued
  {
    hide Inv;
    PendingWasIssued(s, h);
  }

  lemma TellsStep(s: State, step: Step, w: Watch, h: Handle, went: bool)
    requires Inv(s) && Enabled(s, step) && Inv(Apply(s, step)) && WatchInv(s, w) && (went ==> h in s.hist.issued)
    requires h in s.pending ==> h in s.hist.issued && Tells(s, w, h, !went && !Over(s, h))
    ensures var s1, went1 := Apply(s, step), went || GoesOnWithout(s, step, h);
            && WatchInv(s1, Watched(w, s, step)) && (went1 ==> h in s1.hist.issued)
            && (h in s1.pending ==>
                  h in s1.hist.issued && Tells(s1, Watched(w, s, step), h, !went1 && !Over(s1, h)))
  {
    var s1 := Apply(s, step);
    WatchKeeps(s, step, w);
    if ScriptOnTop(s) { TopIsKnown(s); }
    if h in s.hist.issued { StepDecides(s, step, h); }
    if h in s1.pending {
      PendingWasIssued(s1, h);
      if h in s.pending {
        StaysFollowed(s, step, h);
        TellsNext(s, step, s1, w, h, went);
      } else {
        PendingStep(s, step, h);
        NewlyIssued(s, step, h);
        ParkTells(s, step.sleep, w);
      }
    }
    if GoesOnWithout(s, step, h) { WentOnIssued(s, step, h); }
    hide Inv, WatchInv, Tells, Watched, Over, TopKnown, LeavesBehind, GoesOnWithout, Follows, TakenBy;
  }

  lemma {:induction false} WatchTells(r: Run, n: nat, h: Handle)
    requires ValidRun(r) && n <= |r.steps|
    ensures WatchInv(r.states[n], WatchAt(r, n)) && (WentOn(r, n, h) ==> h in r.states[n].hist.issued)
    ensures h in r.states[n].pending ==>
              && h in r.states[n].hist.issued
              && Tells(r.states[n], WatchAt(r, n), h, !WentOn(r, n, h) && !Over(r.states[n], h))
  {
    hide Inv, Apply, Enabled, GoesOnWithout, Tells, Over, Watched;
    if n > 0 {
      WatchTells(r, n - 1, h);
      RunKeeps(r, n - 1);
      RunKeeps(r, n);
      assert StepAt(r, n - 1);
      TellsStep(r.states[n - 1], r.steps[n - 1], WatchAt(r, n - 1), h, WentOn(r, n - 1, h));
      WentOnNext(r, n, h);
    }
  }

  lemma WakeResumes(s: State, step: Step, h: Handle)
    requires Enabled(s, step) && WokenBy(s, step, h) && SuspendedAt(s.lua, s.pending[h])
    ensures Resumes(s, Apply(s, step), h)
  {
    StepLogs(s, step);
    WakeAdds(s, step, h);
    hide Apply, Enabled, Resumes;
  }

  lemma WakeAdds(s: State, step: Step, h: Handle)
    requires Enabled(s, step) && WokenBy(s, step, h) && SuspendedAt(s.lua, s.pending[h])
    ensures step.RunClosure? && s.exec.queue[step.t].h == h
    ensures |Apply(s, step).hist.resumes| == |s.hist.resumes| + 1
  {
    hide SetSt, HandlesOf, PoolRelease;
  }

  /**
   A wake-up resumes its coroutine at the yield that was made for this handle if and only if
   the coroutine never went on without it, and it was not left behind. In every other case
   the coroutine stands at a later yield and takes the values for that one's.
   */
  lemma ResumesOwnPark(r: Run, n: nat, h: Handle)
    requires ValidRun(r) && n < |r.steps| && WokenBy(r.states[n], r.steps[n], h)
    requires SuspendedAt(r.states[n].lua, r.states[n].pending[h])
    ensures Resumes(r.states[n], r.states[n + 1], h)
    ensures Stands(WatchAt(r, n), r.states[n].pending[h], h) <==> !WentOn(r, n, h) && !LeftBehind(r, n, h)
  {
    assert StepAt(r, n);
    WakeResumes(r.states[n], r.steps[n], h);
    WatchTells(r, n, h);
    UseIs(r, n, h);
    hide Inv, Apply, Enabled, Resumes, WokenBy, WentOn, LeftBehind, Over, WatchAt, Stands, ValidRun;
  }
}
