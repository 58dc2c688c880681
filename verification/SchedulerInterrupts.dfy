/** An interrupt comes, and nobody who waits is forgotten. */
module SchedulerInterrupts {
  import opened SchedulerState
  import opened SchedulerSteps
  import opened SchedulerInvariant
  import opened SchedulerUses
  import opened SchedulerRuns
  import opened SchedulerHandlers
  import opened SchedulerQueue
  import opened SchedulerDelivery
  import opened SchedulerAwaits
  import opened SchedulerFlags
  import opened SchedulerCauses

  // --- nobody who waits is forgotten ---

  predicate WaitsAt(s: State, co: Co, hd: Handler) {
    co in s.completions && s.completions[co] == hd
  }

  // The handler was cancelled, or has been given a result.
  ghost predicate Answered(s: State, id: HandlerId) {
    id in s.hist.cancelled || exists result: Result :: Given(s, Settlement(id, result))
  }

  lemma AnswerStep(s: State, step: Step, id: HandlerId)
    requires Inv(s) && Enabled(s, step) && Answered(s, id)
    ensures Answered(Apply(s, step), id)
  {
    FlagStep(s, step);
    hide Inv, Apply, Enabled, Given;
    if id !in s.hist.cancelled {
      var result :| Given(s, Settlement(id, result));
      CauseStep(s, step, Settlement(id, result));
    }
  }

  // A handler that stops waiting is answered by the step that stops it.
  lemma StoppedIsAnswered(s: State, step: Step, co: Co)
    requires Inv(s) && Enabled(s, step) && co in s.completions && StopsWaiting(s, step, co)
    ensures Answered(Apply(s, step), s.completions[co].id)
  {
    var id := s.completions[co].id;
    FlagStep(s, step);
    hide Core, PlaceInv, Apply, Given, TopKnown;
    if !step.HostCancels? {
      var x := StopCauses(s, step, co);
      CauseStep(s, step, x);
      assert Given(Apply(s, step), Settlement(id, x.result));
    }
  }

  lemma StopCauses(s: State, step: Step, co: Co) returns (x: Settlement)
    requires Inv(s) && Enabled(s, step) && co in s.completions && StopsWaiting(s, step, co) && !step.HostCancels?
    ensures x.id == s.completions[co].id && Causes(s, step, x)
  {
    hide PlaceInv, Core;
    if step.ScriptEnd? {
      TopIsKnown(s);
      x := EndCausesIts(s, step.out, co);
    } else {
      CompletionSuspended(s, co);
      var id, loc := s.completions[co].id, s.lua.cos[co].st.loc;
      x := Settlement(id, if step.HostShutsDown? then ShutDown(loc) else Interrupted(loc));
      assert AwaitsAt(s, id, loc);
      hide Enabled;
    }
  }

  lemma EndCausesIts(s: State, out: Outcome, co: Co) returns (x: Settlement)
    requires TopKnown(s) && Top(s) == co && co in s.completions && !out.Yielded?
    ensures x.id == s.completions[co].id && Causes(s, ScriptEnd(out), x)
  {
    x := Settlement(s.completions[co].id, if out.Returned? then Ok(out.values) else Failed(out.message));
  }

  // Where a handler is that has been given a result.
  lemma GivenIsHeld(s: State, x: Settlement) returns (p: Place)
    requires Given(s, x)
    ensures Holds(TablesOf(s), p, x.id) && (p.Settled? || p.OnStack?)
  {
    if x in s.hist.settled {
      var q: nat :| 0 <= q < |s.hist.settled| && s.hist.settled[q] == x;
      p := Settled(q);
    } else {
      var k: nat :| 0 <= k < |s.ctl| && IsDue(s.ctl[k], x);
      p := OnStack(k);
    }
  }

  // An answered handler waits no more.
  lemma AnsweredIsGone(s: State, id: HandlerId, co: Co)
    requires Inv(s) && Answered(s, id) && co in s.completions
    ensures s.completions[co].id != id
  {
    hide Core, Given;
    var p := Cancelled;
    if id !in s.hist.cancelled {
      var result :| Given(s, Settlement(id, result));
      p := GivenIsHeld(s, Settlement(id, result));
    }
    assert Holds(TablesOf(s), p, id);
    assert Holds(TablesOf(s), AtCo(co), s.completions[co].id);
    hide Holds;
  }

  lemma WaitStep(s: State, step: Step, co: Co)
    requires Inv(s) && Enabled(s, step) && co in s.completions
    ensures WaitsAt(Apply(s, step), co, s.completions[co]) || Answered(Apply(s, step), s.completions[co].id)
  {
    AwaitStep(s, step, co);
    if ScriptOnTop(s) { TopIsKnown(s); }
    hide Core, PlaceInv, Apply, Enabled, Answered;
    if StopsWaiting(s, step, co) { StoppedIsAnswered(s, step, co); }
  }

  /**
   A handler that waits for a coroutine goes on waiting for it until it is cancelled or given
   a result, and then it never waits again.
   */
  lemma {:induction false} WaiterIsAnswered(r: Run, i: nat, j: nat, co: Co, hd: Handler)
    requires ValidRun(r) && i <= j <= |r.steps| && WaitsAt(r.states[i], co, hd)
    ensures WaitsAt(r.states[j], co, hd) || Answered(r.states[j], hd.id)
    ensures Answered(r.states[j], hd.id) ==>
              forall c <- r.states[j].completions :: r.states[j].completions[c].id != hd.id
  {
    hide Inv, Apply, Enabled, Answered;
    if i < j {
      WaiterIsAnswered(r, i, j - 1, co, hd);
      RunKeeps(r, j - 1);
      assert StepAt(r, j - 1);
      if Answered(r.states[j - 1], hd.id) {
        AnswerStep(r.states[j - 1], r.steps[j - 1], hd.id);
      } else {
        WaitStep(r.states[j - 1], r.steps[j - 1], co);
      }
    }
    RunKeeps(r, j);
    if Answered(r.states[j], hd.id) {
      forall c <- r.states[j].completions ensures r.states[j].completions[c].id != hd.id {
        AnsweredIsGone(r.states[j], hd.id, c);
      }
    }
  }

  // --- an interrupt comes ---

  // Interrupt(), with both flags clear.
  predicate Interrupts(r: Run, i: nat)
    requires |r.states| == |r.steps| + 1 && i < |r.steps|
  {
    r.steps[i].PostInterrupt? && !r.states[i].shuttingDown && !r.states[i].interrupted
  }

  /** Interrupt() sets the flag and queues one pass, which stays queued until a step takes it. */
  lemma InterruptComes(r: Run, i: nat, j: nat)
    requires ValidRun(r) && i < j <= |r.steps| && Interrupts(r, i)
    ensures var s, s1 := r.states[i], r.states[i + 1];
            && s1.interrupted && s1.exec.queue == s.exec.queue[s.exec.nextTicket := InterruptPass]
            && s.exec.nextTicket !in s.exec.queue
    ensures var t := r.states[i].exec.nextTicket;
            || Waiting(r.states[j], t, InterruptPass)
            || exists k | i < k < j :: TakesAt(r.states[k], r.steps[k], t, InterruptPass)
  {
    assert StepAt(r, i);
    RunKeeps(r, i);
    FlagStep(r.states[i], r.steps[i]);
    QueueStep(r.states[i], r.steps[i]);
    TicketsAreOld(r.states[i]);
    hide Inv, Apply, Enabled, Waiting;
    ScheduledIsTaken(r, i, j, r.states[i].exec.nextTicket, InterruptPass);
  }

  lemma StillRunning(r: Run, k: nat, j: nat)
    requires ValidRun(r) && k <= j <= |r.steps| && !r.states[j].shuttingDown
    ensures !r.states[k].shuttingDown
  {
    ShuttingDownExactly(r, k);
    ShuttingDownExactly(r, j);
    hide ValidRun;
  }

  // After a pass nobody waits.
  lemma PassEmpties(r: Run, k: nat, t: nat, co: Co)
    requires ValidRun(r) && k < |r.steps|
    requires TakesAt(r.states[k], r.steps[k], t, InterruptPass) && !r.states[k].shuttingDown
    ensures co !in r.states[k + 1].completions
  {
    assert StepAt(r, k);
    RunKeeps(r, k);
    hide Inv, Apply, Enabled;
    AwaitStep(r.states[k], r.steps[k], co);
  }

  /**
   Once no pass is queued any more, and no shutdown has begun, every handler that was awaited
   when Interrupt() was called waits no more: it was cancelled or given a result. With the
   call stack empty, the result is settled.
   */
  lemma InterruptEnds(r: Run, i: nat, j: nat, co: Co)
    requires ValidRun(r) && i < j <= |r.steps| && Interrupts(r, i) && co in r.states[i].completions
    requires !r.states[j].shuttingDown
    requires forall t <- r.states[j].exec.queue :: !r.states[j].exec.queue[t].InterruptPass?
    ensures var id := r.states[i].completions[co].id; var s := r.states[j];
            && (forall c <- s.completions :: s.completions[c].id != id)
            && (s.ctl == [] ==> id in s.hist.cancelled || exists x <- s.hist.settled :: x.id == id)
  {
    var hd, t := r.states[i].completions[co], r.states[i].exec.nextTicket;
    InterruptComes(r, i, j);
    hide Answered, TakesAt, StepAt;
    assert !Waiting(r.states[j], t, InterruptPass);
    var k :| i < k < j && TakesAt(r.states[k], r.steps[k], t, InterruptPass);
    StillRunning(r, k, j);
    PassAnswers(r, i, k, t, co);
    AnsweredStays(r, k + 1, j, hd.id);
    if r.states[j].ctl == [] { AnsweredMeans(r.states[j], hd.id); }
  }

  lemma PassAnswers(r: Run, i: nat, k: nat, t: nat, co: Co)
    requires ValidRun(r) && i < k < |r.steps| && co in r.states[i].completions
    requires TakesAt(r.states[k], r.steps[k], t, InterruptPass) && !r.states[k].shuttingDown
    ensures Answered(r.states[k + 1], r.states[i].completions[co].id)
  {
    PassEmpties(r, k, t, co);
    WaiterIsAnswered(r, i, k + 1, co, r.states[i].completions[co]);
    hide Answered, TakesAt, ValidRun;
  }

  lemma {:induction false} AnsweredStays(r: Run, i: nat, j: nat, id: HandlerId)
    requires ValidRun(r) && i <= j <= |r.steps| && Answered(r.states[i], id)
    ensures Answered(r.states[j], id) && forall c <- r.states[j].completions :: r.states[j].completions[c].id != id
  {
    hide Inv, Apply, Enabled, Answered;
    if i < j {
      AnsweredStays(r, i, j - 1, id);
      RunKeeps(r, j - 1);
      assert StepAt(r, j - 1);
      AnswerStep(r.states[j - 1], r.steps[j - 1], id);
    }
    RunKeeps(r, j);
    forall c <- r.states[j].completions
      ensures r.states[j].completions[c].id != id
    {
      AnsweredIsGone(r.states[j], id, c);
    }
  }

  lemma AnsweredMeans(s: State, id: HandlerId)
    requires Answered(s, id) && s.ctl == []
    ensures id in s.hist.cancelled || exists x <- s.hist.settled :: x.id == id
  {
    if id !in s.hist.cancelled {
      var result :| Given(s, Settlement(id, result));
      assert Settlement(id, result).id == id;
    }
  }

  // --- cancelled calls ---

  /** A call that was cancelled is never given a result, before or after. */
  lemma CancelledIsNeverSettled(r: Run, i: nat, j: nat, result: Result)
    requires ValidRun(r) && i < j <= |r.steps| && r.steps[i].HostCancels?
    ensures r.steps[i].co in r.states[i].completions
    ensures var id := r.states[i].completions[r.steps[i].co].id;
            id in r.states[j].hist.cancelled && !Given(r.states[j], Settlement(id, result))
  {
    assert StepAt(r, i);
    FlagStep(r.states[i], r.steps[i]);
    var id := r.states[i].completions[r.steps[i].co].id;
    hide Apply, GatesAfter, Given;
    CancelledStays(r, i + 1, j, id);
    RunKeeps(r, j);
    CancelledIsNotGiven(r.states[j], id, result);
    hide Inv, Enabled;
  }

  lemma {:induction false} CancelledStays(r: Run, i: nat, j: nat, id: HandlerId)
    requires ValidRun(r) && i <= j <= |r.steps| && id in r.states[i].hist.cancelled
    ensures id in r.states[j].hist.cancelled
  {
    hide Apply, Enabled;
    if i < j {
      CancelledStays(r, i, j - 1, id);
      assert StepAt(r, j - 1);
      FlagStep(r.states[j - 1], r.steps[j - 1]);
    }
  }

  lemma CancelledIsNotGiven(s: State, id: HandlerId, result: Result)
    requires Inv(s) && id in s.hist.cancelled
    ensures !Given(s, Settlement(id, result))
  {
    hide Core, Given;
    assert Holds(TablesOf(s), Cancelled, id);
    if Given(s, Settlement(id, result)) {
      var p := GivenIsHeld(s, Settlement(id, result));
    }
    hide Holds;
  }
}
