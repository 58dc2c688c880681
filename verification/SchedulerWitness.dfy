/**
 The run in which a recycled coroutine is resumed by a handle of its earlier use.

 Coroutine 1 requires a module. The module body, in coroutine 2, starts an operation where
 it cannot yield (handle 2), catches the error, and returns. Coroutine 2 goes back to the
 pool with handle 2 still pending, is handed to a host call that parks on handle 3, and is
 then resumed by the completion of handle 2.
 */
module SchedulerWitness {
  import opened SchedulerState
  import opened SchedulerSteps

  // The parts of the state that this run goes through.
  datatype View = View(
    exec: Exec, ctl: seq<Ctl>, lua: Lua, pool: Pool, next: Handle,
    pending: map<Handle, Co>, completions: map<Co, Handler>,
    issued: map<Handle, Ticket>, nextId: HandlerId, resumes: seq<Resumption>)

  predicate At(s: State, v: View) {
    && s.exec == v.exec && s.ctl == v.ctl && s.lua == v.lua && s.pool == v.pool
    && s.timers.next == v.next && s.pending == v.pending && s.completions == v.completions
    && s.hist.issued == v.issued && s.hist.nextId == v.nextId && s.hist.resumes == v.resumes
    && !s.shuttingDown && !s.interrupted && !s.closed
  }

  function Choose(n: nat): Choice {
    Choice(Slot(n, n), true, [], [], [])
  }

  function V0(): View {
    View(Exec(map[], 0), [],
         Lua(map[], 0, map[], multiset{}),
         Pool(map[], []), 1, map[],
         map[],
         map[], 0, [])
  }

  function V1(): View {
    View(Exec(map[0 := Task(CallRef, 0)], 1), [],
         Lua(map[], 0, map[], multiset{}),
         Pool(map[], []), 1, map[],
         map[],
         map[], 1, [])
  }

  function V2(): View {
    View(Exec(map[], 1), [Frame(1, AfterTask(0))],
         Lua(map[1 := CoRec(0, Running(0), Pooled(1))], 1, map[1 := PoolCo(1)], multiset{}),
         Pool(map[1 := 1], []), 1, map[],
         map[],
         map[], 1, [])
  }

  function V3(): View {
    View(Exec(map[], 1), [Frame(1, AfterTask(0))],
         Lua(map[1 := CoRec(0, Running(0), Pooled(1))], 1, map[1 := PoolCo(1)], multiset{}),
         Pool(map[1 := 1], []), 2, map[1 := 1],
         map[],
         map[1 := Ticket(1, 0, false)], 1, [])
  }

  function V4(): View {
    View(Exec(map[], 1), [],
         Lua(map[1 := CoRec(0, Suspended(10), Pooled(1))], 1, map[1 := PoolCo(1)], multiset{}),
         Pool(map[1 := 1], []), 2, map[1 := 1],
         map[1 := TaskPromise(0)],
         map[1 := Ticket(1, 0, false)], 1, [])
  }

  function V5(): View {
    View(Exec(map[1 := RequireRun(1)], 2), [],
         Lua(map[1 := CoRec(0, Suspended(10), Pooled(1))], 1, map[1 := PoolCo(1)], multiset{}),
         Pool(map[1 := 1], []), 2, map[1 := 1],
         map[1 := TaskPromise(0)],
         map[1 := Ticket(1, 0, false)], 1, [])
  }

  function V6(): View {
    View(Exec(map[], 2), [Frame(2, AfterRequire(1))],
         Lua(map[1 := CoRec(0, Suspended(10), Pooled(1)), 2 := CoRec(1, Running(0), Pooled(2))],
             2, map[1 := PoolCo(1), 2 := PoolCo(2)], multiset{}),
         Pool(map[1 := 1, 2 := 2], []), 2, map[1 := 1],
         map[1 := TaskPromise(0)],
         map[1 := Ticket(1, 0, false)], 1, [])
  }

  function V7(): View {
    View(Exec(map[], 2), [Frame(2, AfterRequire(1))],
         Lua(map[1 := CoRec(0, Suspended(10), Pooled(1)), 2 := CoRec(1, Running(0), Pooled(2))],
             2, map[1 := PoolCo(1), 2 := PoolCo(2)], multiset{}),
         Pool(map[1 := 1, 2 := 2], []), 3, map[1 := 1, 2 := 2],
         map[1 := TaskPromise(0)],
         map[1 := Ticket(1, 0, false), 2 := Ticket(2, 1, false)], 1, [])
  }

  function V8(): View {
    View(Exec(map[2 := Resume(1, [1])], 3), [],
         Lua(map[1 := CoRec(0, Suspended(10), Pooled(1)), 2 := CoRec(1, Fresh, Pooled(2))],
             2, map[1 := PoolCo(1), 2 := PoolCo(2)], multiset{}),
         Pool(map[1 := 1], [Slot(2, 2)]), 3, map[1 := 1, 2 := 2],
         map[1 := TaskPromise(0)],
         map[1 := Ticket(1, 0, false), 2 := Ticket(2, 1, false)], 1, [])
  }

  function V9(): View {
    View(Exec(map[2 := Resume(1, [1])], 3), [Frame(2, AfterCall(1))],
         Lua(map[1 := CoRec(0, Suspended(10), Pooled(1)), 2 := CoRec(2, Running(0), Pooled(2))],
             3, map[1 := PoolCo(1), 2 := PoolCo(2)], multiset{}),
         Pool(map[1 := 1, 2 := 2], []), 3, map[1 := 1, 2 := 2],
         map[1 := TaskPromise(0)],
         map[1 := Ticket(1, 0, false), 2 := Ticket(2, 1, false)], 2, [])
  }

  function V10(): View {
    View(Exec(map[2 := Resume(1, [1])], 3), [Frame(2, AfterCall(1))],
         Lua(map[1 := CoRec(0, Suspended(10), Pooled(1)), 2 := CoRec(2, Running(0), Pooled(2))],
             3, map[1 := PoolCo(1), 2 := PoolCo(2)], multiset{}),
         Pool(map[1 := 1, 2 := 2], []), 4, map[1 := 1, 2 := 2, 3 := 2],
         map[1 := TaskPromise(0)],
         map[1 := Ticket(1, 0, false), 2 := Ticket(2, 1, false), 3 := Ticket(2, 2, false)], 2, [])
  }

  function V11(): View {
    View(Exec(map[2 := Resume(1, [1])], 3), [],
         Lua(map[1 := CoRec(0, Suspended(10), Pooled(1)), 2 := CoRec(2, Suspended(20), Pooled(2))],
             3, map[1 := PoolCo(1), 2 := PoolCo(2)], multiset{}),
         Pool(map[1 := 1, 2 := 2], []), 4, map[1 := 1, 2 := 2, 3 := 2],
         map[1 := TaskPromise(0), 2 := HostCallback(1)],
         map[1 := Ticket(1, 0, false), 2 := Ticket(2, 1, false), 3 := Ticket(2, 2, false)], 2, [])
  }

  function V12(): View {
    View(Exec(map[2 := Resume(1, [1]), 3 := Resume(2, [])], 4), [],
         Lua(map[1 := CoRec(0, Suspended(10), Pooled(1)), 2 := CoRec(2, Suspended(20), Pooled(2))],
             3, map[1 := PoolCo(1), 2 := PoolCo(2)], multiset{}),
         Pool(map[1 := 1, 2 := 2], []), 4, map[1 := 1, 2 := 2, 3 := 2],
         map[1 := TaskPromise(0), 2 := HostCallback(1)],
         map[1 := Ticket(1, 0, false), 2 := Ticket(2, 1, false), 3 := Ticket(2, 2, false)], 2, [])
  }

  function V13(): View {
    View(Exec(map[2 := Resume(1, [1])], 4), [Frame(2, AfterResume)],
         Lua(map[1 := CoRec(0, Suspended(10), Pooled(1)), 2 := CoRec(2, Running(0), Pooled(2))],
             3, map[1 := PoolCo(1), 2 := PoolCo(2)], multiset{}),
         Pool(map[1 := 1, 2 := 2], []), 4, map[1 := 1, 3 := 2],
         map[1 := TaskPromise(0), 2 := HostCallback(1)],
         map[1 := Ticket(1, 0, false), 2 := Ticket(2, 1, false), 3 := Ticket(2, 2, false)], 2,
         [Resumption(2, 2, 2, [])])
  }

  lemma Step0(s: State)
    requires At(s, V0())
    ensures Enabled(s, PostTask(CallRef)) && At(Apply(s, PostTask(CallRef)), V1())
  {}

  lemma Step1(s: State)
    requires At(s, V1())
    ensures Enabled(s, RunClosure(0, Choose(1))) && At(Apply(s, RunClosure(0, Choose(1))), V2())
  {}

  lemma Step2(s: State)
    requires At(s, V2())
    ensures Enabled(s, ScriptPark(false)) && At(Apply(s, ScriptPark(false)), V3())
  {}

  lemma Step3(s: State)
    requires At(s, V3())
    ensures Enabled(s, ScriptEnd(Yielded(10))) && At(Apply(s, ScriptEnd(Yielded(10))), V4())
  {}

  lemma Step4(s: State)
    requires At(s, V4())
    ensures Enabled(s, PostRequireRun(1)) && At(Apply(s, PostRequireRun(1)), V5())
  {}

  lemma Step5(s: State)
    requires At(s, V5())
    ensures Enabled(s, RunClosure(1, Choose(2))) && At(Apply(s, RunClosure(1, Choose(2))), V6())
  {}

  lemma Step6(s: State)
    requires At(s, V6())
    ensures Enabled(s, ScriptPark(false)) && At(Apply(s, ScriptPark(false)), V7())
  {}

  lemma Step7(s: State)
    requires At(s, V7())
    ensures Enabled(s, ScriptEnd(Returned([]))) && At(Apply(s, ScriptEnd(Returned([]))), V8())
  {}

  lemma Step8(s: State)
    requires At(s, V8())
    ensures Enabled(s, HostCalls(Slot(3, 3))) && At(Apply(s, HostCalls(Slot(3, 3))), V9())
  {}

  lemma Step9(s: State)
    requires At(s, V9())
    ensures Enabled(s, ScriptPark(false)) && At(Apply(s, ScriptPark(false)), V10())
  {}

  lemma Step10(s: State)
    requires At(s, V10())
    ensures Enabled(s, ScriptEnd(Yielded(20))) && At(Apply(s, ScriptEnd(Yielded(20))), V11())
  {}

  lemma Step11(s: State)
    requires At(s, V11())
    ensures Enabled(s, PostResume(2, [])) && At(Apply(s, PostResume(2, [])), V12())
  {}

  lemma Step12(s: State)
    requires At(s, V12())
    ensures Enabled(s, RunClosure(3, Choose(3))) && At(Apply(s, RunClosure(3, Choose(3))), V13())
  {
    ResumeClosureIs(s, 3, Choose(3), 2, []);
    LateResume(Dequeue(s, 3));
    hide Apply, DoResume;
  }

  lemma ResumeClosureIs(s: State, t: nat, ch: Choice, h: Handle, args: seq<Value>)
    requires Enabled(s, RunClosure(t, ch)) && s.exec.queue[t] == Resume(h, args) && !s.shuttingDown
    ensures Apply(s, RunClosure(t, ch)) == DoResume(Dequeue(s, t), h, args)
  {
    hide DoResume, Dequeue;
  }

  // The handle of an earlier use resumes the coroutine in its present one.
  lemma LateResume(s: State)
    requires At(s, V12().(exec := Exec(map[2 := Resume(1, [1])], 4)))
    ensures At(DoResume(s, 2, []), V13())
  {}

  function Last(r: Run): State
    requires r.states != []
  {
    r.states[|r.states| - 1]
  }

  lemma Extend(r: Run, step: Step) returns (r1: Run)
    requires ValidRun(r) && Enabled(Last(r), step)
    ensures ValidRun(r1) && Last(r1) == Apply(Last(r), step)
    ensures r1.steps == r.steps + [step] && r.states <= r1.states
  {
    r1 := Run(r.states + [Apply(Last(r), step)], r.steps + [step]);
    hide Apply, Enabled;
    forall i | 0 <= i < |r1.steps| ensures StepAt(r1, i) {
      if i < |r.steps| { assert StepAt(r, i); }
    }
  }

  /**
   The failure, in full: handle 2 was obtained in use 1 of coroutine 2, and its completion
   resumes coroutine 2 in use 2.
   */
  lemma RecycledCoroutineIsResumed() returns (r: Run)
    ensures ValidRun(r)
    ensures var hist := Last(r).hist;
            && hist.resumes == [Resumption(2, 2, 2, [])]
            && 2 in hist.issued && hist.issued[2] == Ticket(2, 1, false)
  {
    r := Run([INITIAL], []);
    assert At(Last(r), V0());
    hide Apply, Enabled, At, ValidRun;
    assert ValidRun(r) by { StartIsRun(); }
    Step0(Last(r));
    r := Extend(r, PostTask(CallRef));
    Step1(Last(r));
    r := Extend(r, RunClosure(0, Choose(1)));
    Step2(Last(r));
    r := Extend(r, ScriptPark(false));
    Step3(Last(r));
    r := Extend(r, ScriptEnd(Yielded(10)));
    Step4(Last(r));
    r := Extend(r, PostRequireRun(1));
    Step5(Last(r));
    r := Extend(r, RunClosure(1, Choose(2)));
    Step6(Last(r));
    r := Extend(r, ScriptPark(false));
    Step7(Last(r));
    r := Extend(r, ScriptEnd(Returned([])));
    Step8(Last(r));
    r := Extend(r, HostCalls(Slot(3, 3)));
    Step9(Last(r));
    r := Extend(r, ScriptPark(false));
    Step10(Last(r));
    r := Extend(r, ScriptEnd(Yielded(20)));
    Step11(Last(r));
    r := Extend(r, PostResume(2, []));
    Step12(Last(r));
    r := Extend(r, RunClosure(3, Choose(3)));
    Final(Last(r));
  }

  lemma StartIsRun()
    ensures ValidRun(Run([INITIAL], []))
  {}

  lemma Final(s: State)
    requires At(s, V13())
    ensures 2 in s.hist.issued && s.hist.issued[2] == Ticket(2, 1, false)
    ensures s.hist.resumes == [Resumption(2, 2, 2, [])]
  {}
}
