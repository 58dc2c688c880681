/**
 The run in which a coroutine takes the values of one operation for those of another.

 A call starts an operation where it cannot yield (handle 1), catches the error, and later
 parks on handle 2. The completion of the first operation then resumes it at the second yield.
 */
module SchedulerLateWake {
  import opened SchedulerState
  import opened SchedulerSteps
  import opened SchedulerParks
  import opened SchedulerWitness

  function C(st: CoState): Lua {
    Lua(map[1 := CoRec(0, st, Pooled(1))], 1, map[1 := PoolCo(1)], multiset{})
  }

  function Started(next: Handle, pending: map<Handle, Co>, issued: map<Handle, Ticket>): View {
    View(Exec(map[], 0), [Frame(1, AfterCall(0))], C(Running(0)), Pool(map[1 := 1], []), next, pending,
         map[], issued, 1, [])
  }

  function U1(): View {
    Started(1, map[], map[])
  }

  function U2(): View {
    Started(2, map[1 := 1], map[1 := Ticket(1, 0, false)])
  }

  function U3(): View {
    Started(3, map[1 := 1, 2 := 1], map[1 := Ticket(1, 0, false), 2 := Ticket(1, 0, false)])
  }

  function U4(): View {
    U3().(ctl := [], lua := C(Suspended(20)), completions := map[1 := HostCallback(0)])
  }

  function U5(): View {
    U4().(exec := Exec(map[0 := Resume(1, [7])], 1))
  }

  function U6(): View {
    U5().(exec := Exec(map[], 1), ctl := [Frame(1, AfterResume)], lua := C(Running(0)), pending := map[2 := 1],
          resumes := [Resumption(1, 1, 0, [7])])
  }

  // --- what the watch says along the run ---

  function W0(): Watch {
    Watch(map[], map[])
  }

  function W1(): Watch {
    Watch(map[1 := 1], map[])
  }

  function W2(): Watch {
    Watch(map[1 := 2], map[])
  }

  function W3(): Watch {
    Watch(map[], map[1 := 2])
  }

  lemma Call(s: State)
    requires At(s, V0())
    ensures Enabled(s, HostCalls(Slot(1, 1))) && At(Apply(s, HostCalls(Slot(1, 1))), U1())
    ensures Watched(W0(), s, HostCalls(Slot(1, 1))) == W0()
  {}

  lemma Raises(s: State)
    requires At(s, U1())
    ensures Enabled(s, ScriptPark(false)) && At(Apply(s, ScriptPark(false)), U2())
    ensures Watched(W0(), s, ScriptPark(false)) == W1()
  {}

  lemma GoesOn(s: State)
    requires At(s, U2())
    ensures Enabled(s, ScriptRuns) && At(Apply(s, ScriptRuns), U2())
    ensures Watched(W1(), s, ScriptRuns) == W0()
  {}

  lemma Parks(s: State)
    requires At(s, U2())
    ensures Enabled(s, ScriptPark(false)) && At(Apply(s, ScriptPark(false)), U3())
    ensures Watched(W0(), s, ScriptPark(false)) == W2()
  {}

  lemma Yields(s: State)
    requires At(s, U3())
    ensures Enabled(s, ScriptEnd(Yielded(20))) && At(Apply(s, ScriptEnd(Yielded(20))), U4())
    ensures Watched(W2(), s, ScriptEnd(Yielded(20))) == W3()
  {}

  lemma Completes(s: State)
    requires At(s, U4())
    ensures Enabled(s, PostResume(1, [7])) && At(Apply(s, PostResume(1, [7])), U5())
    ensures Watched(W3(), s, PostResume(1, [7])) == W3()
  {}

  lemma Wakes(s: State)
    requires At(s, U5())
    ensures Enabled(s, RunClosure(0, Choose(2))) && At(Apply(s, RunClosure(0, Choose(2))), U6())
    ensures Watched(W3(), s, RunClosure(0, Choose(2))) == W3()
  {
    ResumeClosureIs(s, 0, Choose(2), 1, [7]);
    WakesHere(Dequeue(s, 0));
    hide Apply, DoResume;
  }

  lemma WakesHere(s: State)
    requires At(s, U5().(exec := Exec(map[], 1)))
    ensures At(DoResume(s, 1, [7]), U6())
  {}

  lemma {:induction false} SameWatch(r: Run, r1: Run, n: nat)
    requires |r.states| == |r.steps| + 1 && |r1.states| == |r1.steps| + 1 && n <= |r.steps| <= |r1.steps|
    requires r.states <= r1.states && r.steps <= r1.steps
    ensures WatchAt(r1, n) == WatchAt(r, n)
  {
    if n > 0 { SameWatch(r, r1, n - 1); }
  }

  lemma Continue(r: Run, step: Step, w: Watch) returns (r1: Run)
    requires ValidRun(r) && Enabled(Last(r), step) && WatchAt(r, |r.steps|) == w
    ensures ValidRun(r1) && Last(r1) == Apply(Last(r), step)
    ensures |r1.steps| == |r.steps| + 1 && WatchAt(r1, |r.steps|) == w
    ensures WatchAt(r1, |r1.steps|) == Watched(w, Last(r), step)
  {
    hide Apply, Enabled, Watched, StepAt;
    r1 := Extend(r, step);
    SameWatch(r, r1, |r.steps|);
    assert r1.states[|r.steps|] == r.states[|r.steps|] == Last(r);
  }

  /** The values of handle 1 arrive at the yield that was made for handle 2, which is still pending. */
  lemma OtherYieldIsResumed() returns (r: Run)
    ensures ValidRun(r) && |r.steps| > 0 && Stands(WatchAt(r, |r.steps| - 1), 1, 2)
    ensures Last(r).hist.resumes == [Resumption(1, 1, 0, [7])] && 2 in Last(r).pending
  {
    r := Run([INITIAL], []);
    StartIsRun();
    assert At(Last(r), V0()) && WatchAt(r, 0) == W0();
    hide *;
    Call(Last(r));
    r := Continue(r, HostCalls(Slot(1, 1)), W0());
    Raises(Last(r));
    r := Continue(r, ScriptPark(false), W0());
    GoesOn(Last(r));
    r := Continue(r, ScriptRuns, W1());
    Parks(Last(r));
    r := Continue(r, ScriptPark(false), W0());
    Yields(Last(r));
    r := Continue(r, ScriptEnd(Yielded(20)), W2());
    Completes(Last(r));
    r := Continue(r, PostResume(1, [7]), W3());
    Wakes(Last(r));
    r := Continue(r, RunClosure(0, Choose(2)), W3());
    Arrived(Last(r));
    assert Stands(W3(), 1, 2) by { StandsThere(); }
  }

  lemma StandsThere()
    ensures Stands(W3(), 1, 2)
  {}

  lemma Arrived(s: State)
    requires At(s, U6())
    ensures s.hist.resumes == [Resumption(1, 1, 0, [7])] && 2 in s.pending
  {}
}
