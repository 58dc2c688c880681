/** Where completion handlers are in every run, and what they are settled with. */
module SchedulerHandlers {
  import opened SchedulerState
  import opened Wrappers
  import opened SchedulerSteps
  import opened SchedulerInvariant
  import opened SchedulerKeeps
  import opened SchedulerSafety
  import opened SchedulerProgress
  import opened SchedulerLogs
  import opened SchedulerUses
  import opened SchedulerRuns

  // --- handlers ---

  /**
   Every handler ever submitted is in exactly one place: the queue, the stack, the
   completion table, cancelled, or settled once.
   */
  lemma HandlersAreConserved(r: Run, id: HandlerId)
    requires ValidRun(r)
    ensures var s := r.states[|r.steps|];
            id < s.hist.nextId <==> exists p: Place :: Holds(TablesOf(s), p, id)
    ensures var v := TablesOf(r.states[|r.steps|]);
            forall p: Place, q: Place :: Holds(v, p, id) && Holds(v, q, id) ==> p == q
  {
    var s := r.states[|r.steps|];
    RunKeeps(r, |r.steps|);
    hide Core, Holds;
    if id < s.hist.nextId { assert Holds(TablesOf(s), s.hist.place[id], id); }
  }

  /** With nothing on the stack, a coroutine that somebody awaits is checked out and suspended. */
  lemma AwaitedIsSuspended(r: Run, n: nat, co: Co)
    requires ValidRun(r) && n <= |r.steps| && r.states[n].ctl == [] && co in r.states[n].completions
    ensures co in r.states[n].pool.active && SuspendedAt(r.states[n].lua, co)
  {
    RunKeeps(r, n);
    hide Inv, ValidRun;
    CompletionSuspended(r.states[n], co);
  }

  lemma CompletionSuspended(s: State, co: Co)
    requires Inv(s) && s.ctl == [] && co in s.completions
    ensures co in s.pool.active && SuspendedAt(s.lua, co)
  {
    CompletionActive(s, co);
    Split(s);
    hide Core, Machine, Handles, Timing, PlaceInv, ResumeInv, CallerInv, PendInv, ArmedInv, TimerInv;
  }

  // --- the interrupt pass ---

  // Nothing is parked, nothing is checked out, and for each coroutine that was awaited
  // one handler call is due, carrying the place where that coroutine stood.
  ghost predicate Quiescent(s: State, s1: State, order: seq<Co>)
    requires Enumerates(order, s.completions.Keys)
  {
    && s1.pending == map[] && s1.pins == map[] && s1.completions == map[]
    && s1.timers.active == map[] && s1.pool.active == map[]
    && |s1.ctl| == |order|
    && (forall i | 0 <= i < |order| ::
          && SuspendedAt(s.lua, order[i])
          && s1.ctl[i] == Deliver(s.completions[order[i]], Interrupted(s.lua.cos[order[i]].st.loc)))
    && (forall co | co in s.lua.cos && s.lua.cos[co].kind.Pooled? :: InIdle(s1.pool.idle, co))
  }

  predicate DoneBelow(s: State, next: Handle) {
    forall h: Handle | h < next :: Done(s, h)
  }

  // Step i runs the closure that Interrupt scheduled.
  predicate PassAt(r: Run, i: nat)
    requires i < |r.steps| && |r.states| == |r.steps| + 1
  {
    && r.steps[i].RunClosure? && !r.states[i].shuttingDown
    && r.steps[i].t in r.states[i].exec.queue && r.states[i].exec.queue[r.steps[i].t].InterruptPass?
  }

  /** An interrupt pass leaves the runtime quiescent, and every handle issued so far is done. */
  lemma InterruptPassQuiesces(r: Run, i: nat)
    requires ValidRun(r) && i < |r.steps| && PassAt(r, i)
    ensures Enumerates(r.steps[i].choice.handlerOrder, r.states[i].completions.Keys)
    ensures Quiescent(r.states[i], r.states[i + 1], r.steps[i].choice.handlerOrder)
    ensures DoneBelow(r.states[i + 1], r.states[i].timers.next)
  {
    RunKeeps(r, i);
    assert StepAt(r, i);
    hide Inv, Apply, Quiescent;
    PassQuiesces(r.states[i], r.steps[i].t, r.steps[i].choice);
  }

  lemma PassQuiesces(s: State, t: nat, ch: Choice)
    requires Inv(s) && Enabled(s, RunClosure(t, ch)) && s.exec.queue[t].InterruptPass? && !s.shuttingDown
    ensures Quiescent(s, Apply(s, RunClosure(t, ch)), ch.handlerOrder)
    ensures DoneBelow(Apply(s, RunClosure(t, ch)), s.timers.next)
  {
    hide PlaceInv, Core;
    forall i | 0 <= i < |ch.handlerOrder| ensures SuspendedAt(s.lua, ch.handlerOrder[i]) {
      CompletionSuspended(s, ch.handlerOrder[i]);
    }
    DequeuePool(s, t);
    hide PoolInv;
    PassPools(Dequeue(s, t), ch.coOrder, ch.handlerOrder);
    PinsArePending(s);
  }

  lemma PassPools(s: State, a: seq<Co>, b: seq<Co>)
    requires PoolInv(s) && Orders(s, a, b) && !s.shuttingDown
    ensures var s1 := RunInterruptPass(s, a, b);
            forall co | co in s.lua.cos && s.lua.cos[co].kind.Pooled? :: InIdle(s1.pool.idle, co)
  {
    PassActive(s, a, b);
    hide IdleInv, HomeInv, InIdle;
  }

  lemma DequeuePool(s: State, t: nat)
    requires Core(s)
    ensures PoolInv(Dequeue(s, t))
  {
    Split(s);
    hide Core, Machine, Handles, Timing, CtlInv, KeyInv, ClosedInv, PendInv, ResumeInv, CallerInv, ArmedInv, TimerInv;
  }

  /**
   A handle issued before an interrupt pass is never resumed and never fires again,
   whatever the rest of the run does: handles are not reissued.
   */
  lemma PassIsForever(r: Run, i: nat, j: nat, h: Handle)
    requires ValidRun(r) && i < j <= |r.steps|
    requires PassAt(r, i)
    requires h < r.states[i].timers.next
    ensures Done(r.states[j], h) && NotResumed(r.states[i + 1], r.states[j], h)
  {
    hide Quiescent;
    InterruptPassQuiesces(r, i);
    RunContinues(r, i + 1, j, h);
  }

  // --- what becomes of a handler that is due ---

  // The log has gained this entry.
  predicate SettledSince(s: State, s1: State, x: Settlement) {
    exists q | |s.hist.settled| <= q < |s1.hist.settled| :: s1.hist.settled[q] == x
  }

  lemma SettledStays(s: State, s1: State, s2: State, x: Settlement)
    requires SettledSince(s, s1, x) && s1.hist.settled <= s2.hist.settled
    ensures SettledSince(s, s2, x)
  {
    var q :| |s.hist.settled| <= q < |s1.hist.settled| && s1.hist.settled[q] == x;
    assert s2.hist.settled[q] == x;
  }

  /**
   A handler that is due on the call stack stays there unchanged until it runs, and when it
   has run it is settled with the very result it was given.
   */
  lemma {:induction false} DueIsSettled(r: Run, i: nat, j: nat, k: nat)
    requires ValidRun(r) && i <= j <= |r.steps| && k < |r.states[i].ctl| && r.states[i].ctl[k].Deliver?
    ensures var Deliver(hd, result) := r.states[i].ctl[k];
            || (k < |r.states[j].ctl| && r.states[j].ctl[k] == r.states[i].ctl[k])
            || SettledSince(r.states[i], r.states[j], Settlement(hd.id, result))
  {
    hide Apply, Enabled, SettledSince;
    if i < j {
      DueIsSettled(r, i, j - 1, k);
      assert StepAt(r, j - 1);
      var s, step := r.states[j - 1], r.steps[j - 1];
      var Deliver(hd, result) := r.states[i].ctl[k];
      StepContinues(s, step, 0);
      RunContinues(r, i, j - 1, 0);
      if SettledSince(r.states[i], s, Settlement(hd.id, result)) {
        SettledStays(r.states[i], s, r.states[j], Settlement(hd.id, result));
      } else {
        StepKeepsStack(s, step);
        DueAfter(r.states[i], s, step, r.states[j], k);
      }
    }
  }

  lemma DueAfter(a: State, s: State, step: Step, s1: State, k: nat)
    requires k < |s.ctl| && s.ctl[k].Deliver? && StackKept(s, step, s1) && a.hist.settled <= s.hist.settled
    ensures || (k < |s1.ctl| && s1.ctl[k] == s.ctl[k])
            || SettledSince(a, s1, Settlement(s.ctl[k].handler.id, s.ctl[k].result))
  {
    var n := |s.ctl| - 1;
    if k < n {
      assert s1.ctl[..n][k] == s.ctl[..n][k];
    } else if step == RunHandler {
      assert s1.hist.settled[|s.hist.settled|] == Settlement(s.ctl[k].handler.id, s.ctl[k].result);
    }
  }

  // No other result is ever recorded for a handler.
  lemma SettledOnce(r: Run, n: nat, x: Settlement)
    requires ValidRun(r) && n <= |r.steps| && x in r.states[n].hist.settled
    ensures forall q | 0 <= q < |r.states[n].hist.settled| ::
              r.states[n].hist.settled[q].id == x.id ==> r.states[n].hist.settled[q] == x
  {
    var s := r.states[n];
    RunKeeps(r, n);
    hide Core;
    var p :| 0 <= p < |s.hist.settled| && s.hist.settled[p] == x;
    assert Holds(TablesOf(s), Settled(p), x.id);
    forall q | 0 <= q < |s.hist.settled| && s.hist.settled[q].id == x.id ensures q == p {
      assert Holds(TablesOf(s), Settled(q), x.id);
    }
  }

  /**
   Once the call stack is empty again after an interrupt pass, the handler of every coroutine
   that was awaited is settled, once, with the place where that coroutine stood.
   */
  lemma InterruptSettles(r: Run, i: nat, j: nat, co: Co)
    requires ValidRun(r) && i < j <= |r.steps| && r.states[j].ctl == [] && co in r.states[i].completions
    requires PassAt(r, i)
    ensures SuspendedAt(r.states[i].lua, co)
    ensures var x := Settlement(r.states[i].completions[co].id, Interrupted(r.states[i].lua.cos[co].st.loc));
            && SettledSince(r.states[i], r.states[j], x)
            && forall q | 0 <= q < |r.states[j].hist.settled| ::
                 r.states[j].hist.settled[q].id == x.id ==> r.states[j].hist.settled[q] == x
  {
    hide SettledSince;
    var s, order := r.states[i], r.steps[i].choice.handlerOrder;
    InterruptPassQuiesces(r, i);
    var k :| 0 <= k < |order| && order[k] == co;
    var x := Settlement(s.completions[co].id, Interrupted(s.lua.cos[co].st.loc));
    assert r.states[i + 1].ctl[k] == Deliver(s.completions[co], x.result);
    DueIsSettled(r, i + 1, j, k);
    SettledFrom(r, i, j, x);
  }

  lemma SettledFrom(r: Run, i: nat, j: nat, x: Settlement)
    requires ValidRun(r) && i < j <= |r.steps| && SettledSince(r.states[i + 1], r.states[j], x)
    ensures SettledSince(r.states[i], r.states[j], x)
    ensures forall q | 0 <= q < |r.states[j].hist.settled| ::
              r.states[j].hist.settled[q].id == x.id ==> r.states[j].hist.settled[q] == x
  {
    RunContinues(r, i, i + 1, 0);
    var q :| |r.states[i + 1].hist.settled| <= q < |r.states[j].hist.settled| && r.states[j].hist.settled[q] == x;
    assert |r.states[i].hist.settled| <= q;
    SettledOnce(r, j, x);
    hide ValidRun;
  }

  // The handler that hears of the end of the script on top, if there is one: that of the task
  // or the call that started it, or the one that waits for its coroutine.
  function Heard(s: State): Option<HandlerId>
    requires ScriptOnTop(s)
  {
    match s.ctl[|s.ctl| - 1].after
    case AfterTask(id) => Some(id)
    case AfterCall(id) => Some(id)
    case _ => if Top(s) in s.completions then Some(s.completions[Top(s)].id) else None
  }

  // The log has gained this entry, and has no other for its handler.
  predicate SettledAs(s: State, s1: State, id: HandlerId, result: Result) {
    && SettledSince(s, s1, Settlement(id, result))
    && forall q | 0 <= q < |s1.hist.settled| :: s1.hist.settled[q].id == id ==> s1.hist.settled[q].result == result
  }

  /**
   A script that ends settles the handler that hears of it, once: with `Ok` and the values it
   returned, or with `Failed` and what it raised. By the time the stack is below the place
   where the script ran, this is in the log.
   */
  lemma OutcomeIsSettled(r: Run, i: nat, j: nat)
    requires ValidRun(r) && i < j <= |r.steps| && r.steps[i].ScriptEnd?
    requires ScriptOnTop(r.states[i]) && Heard(r.states[i]).Some? && |r.states[j].ctl| < |r.states[i].ctl|
    ensures match r.steps[i].out
            case Returned(values) => SettledAs(r.states[i], r.states[j], Heard(r.states[i]).value, Ok(values))
            case Raised(message) => SettledAs(r.states[i], r.states[j], Heard(r.states[i]).value, Failed(message))
            case Yielded(_) => true
  {
    hide Inv, SettledSince, EndScript, TopKnown, Heard;
    var s, out := r.states[i], r.steps[i].out;
    if !out.Yielded? {
      RunKeeps(r, i);
      assert StepAt(r, i);
      EndIsDue(s, out);
      DueIsSettled(r, i + 1, j, |s.ctl| - 1);
      SettledFrom(r, i, j, Settlement(Heard(s).value, ResultOf(out)));
    }
    hide Apply, ValidRun;
  }

  // The handler's turn comes where the script ran.
  predicate DueAt(s1: State, n: nat, id: HandlerId, result: Result) {
    |s1.ctl| == n + 1 && s1.ctl[n].Deliver? && s1.ctl[n].handler.id == id && s1.ctl[n].result == result
  }

  lemma EndIsDue(s: State, out: Outcome)
    requires Inv(s) && ScriptOnTop(s) && Heard(s).Some? && !out.Yielded?
    ensures DueAt(EndScript(s, out), |s.ctl| - 1, Heard(s).value, ResultOf(out))
  {
    var co, after := Top(s), s.ctl[|s.ctl| - 1].after;
    TopFacts(s);
    if co in s.completions {
      CompletionActive(s, co);
      CompletionPooled(s, co);
    }
    hide Inv, EndScript, Gone, SetSt;
    match after {
      case AfterTask(id) => EndTaskIs(s, co, id, out); PushedIsDue(s, TaskPromise(id), ResultOf(out));
      case AfterCall(id) => EndCallIs(s, co, id, out); PushedIsDue(s, HostCallback(id), ResultOf(out));
      case AfterResume => EndOtherIs(s, co, after, out); PushedIsDue(s, s.completions[co], ResultOf(out));
      case AfterTimeout => assert false;
      case AfterRequire(_) => assert false;
      case ByScript => assert false;
    }
  }

  lemma PushedIsDue(s: State, hd: Handler, result: Result)
    requires ScriptOnTop(s)
    ensures DueAt(PushDeliver(Gone(s, Top(s)), hd, result), |s.ctl| - 1, hd.id, result)
  {
    hide HandlesOf, SetSt, PoolRelease;
  }

  lemma CompletionPooled(s: State, co: Co)
    requires Core(s) && co in s.completions
    ensures co in s.lua.cos && s.lua.cos[co].kind.Pooled?
  {
    Split(s);
    hide Core, Machine, Handles, Timing, PoolInv, CtlInv, PendInv, ResumeInv, CallerInv, ArmedInv, TimerInv;
  }
}
