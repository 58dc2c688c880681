# A verified model of the Lua runtime

This project models the coroutine runtime of the repository (`LuaRuntime` with its `CoroutinePool` and
`TimerManager`), and four smaller parts that scripts reach through it: the URL normaliser and the proxy parser of the
HTTP library, the conversion between JSON trees and Lua tables, the buffered asynchronous reader, and `await`. What it
proves holds for every input and every run. Nothing of the original program was run.

## The runtime

`SchedulerState.dfy` gives the state (tables, pool, timers, registry, call stack, and a history nobody reads) and, for
each operation, the function from state to state. `SchedulerSteps.dfy` says which steps can come when, and what a run is.
`LuaRuntime.dfy` and `RuntimeParts.dfy` are the classes of the source, written with their loops and in their order of
updates; each method is proved to compute its function, and `Execute` takes any step of any run with these methods.

The theorems are about every run, without a condition on it: `SchedulerRuns.RunKeeps` gives the invariant of
`SchedulerInvariant.dfy` for each of its states, and on it rest

- `SchedulerCheckouts.dfy`: who is resumed for a handle, and in which use of its coroutine;
- `SchedulerParks.dfy`: at which of its yields;
- `SchedulerPending.dfy`: how a handle leaves `pending_`;
- `SchedulerQueue.dfy`, `SchedulerDelivery.dfy`: what each step schedules, and that it is run and arrives;
- `SchedulerStarts.dfy`, `SchedulerStatus.dfy`: which scripts are entered, on which coroutine; who is checked out, and what
  becomes of a script's own coroutines;
- `SchedulerAwaits.dfy`, `SchedulerHandlers.dfy`: which handler waits for which coroutine, and where handlers are;
- `SchedulerCauses.dfy`: which result each handler is settled with, and why;
- `SchedulerInterrupts.dfy`: that an interrupt comes, and forgets nobody who waits;
- `SchedulerFlags.dfy`: the flags and the recorded fault;
- `SchedulerTimers.dfy`, `SchedulerTimeouts.dfy`: timeouts, sleepers and the pause;
- `SchedulerPool.dfy`: the pool and the shutdown.

The queue, the starts, the check-outs, the waiters, the results, the flags and the timeouts are told a second time there,
without the operations: small definitions in terms of the step alone (`Scheduled`, `Started`, `StartsWaiting`, `Causes`,
`GatesAfter`, `Disarms`, `StatusAfter`) say what each step does to one table, and the theorems say over whole runs that the
table holds exactly that.

Below them are what each operation keeps (`SchedulerKeeps.dfy`, `SchedulerPlaces.dfy`, `SchedulerSafety.dfy`), what it does
to one handle (`SchedulerUses.dfy`, `SchedulerProgress.dfy`), and what a step adds to the history (`SchedulerLogs.dfy`).

What the model takes for granted:

- One executor thread: a scheduled closure runs when the call stack is empty, and the queued closures run in any order.
  Other threads only read flags and schedule. The flag exchange and the `schedule` call of `Interrupt` are one step.
- A call of `lua_resume` hands control to a script, which may then do anything in any order: park through an engine
  operation, run on and be made to yield by the count hook, set and clear timers, create, resume and close coroutines of
  its own, end or raise. It resumes or closes only coroutines it created. Source functions that call `lua_resume` are cut there.
- `PreYield` followed at once by a yield is a park. `PreYield` without a yield is possible too: a yield across a C call
  raises, and leaves the handle pending; whatever the script executes next shows that it did not yield.
- The host cancels only calls that still wait, as the header of `CancelCall` says (`src/lua/lua_runtime.h:106-107`).
- Engine operations complete their handles at any time, any number of times; a sleep is completed by its timer only.
- A completion handler may run host code inline, so it is a call-stack item of its own with steps above it.
- Lua's collector frees a script coroutine that is neither running nor pinned.
- The addresses of new threads, free registry slots and the walking order of hash maps are arguments of the steps.

### A way to resume the wrong checkout

`ProcessRequireRun` gives its coroutine back without `CleanupStalePendings` when the module body ends in its first
`lua_resume` (`src/lua/lua_runtime.cc:764-771` and `:792-799`). A body that started an operation where it could not yield
(inside `table.sort`, say, under `pcall`) leaves a pending handle, and its completion then resumes whoever holds the
recycled coroutine. `SchedulerWitness.RecycledCoroutineIsResumed` is such a run, from the initial state.

It is the only way, and it concerns only the handle that was left behind. `SchedulerCheckouts.CurrentExactly` proves of
each handle, in every state of every run, that it belongs to the use of its coroutine in which it was obtained if and only
if no module body ended with this very handle pending; `NoStaleExactly` says the same of a whole run, and
`ResumesOwnCheckout` of each `lua_resume`. The theorems that speak of one handle's own use and need it not to be left
behind (`LateCompletionIsIgnored`, `CompletionWakes`, `SleeperWakes`, and what `SchedulerDelivery.dfy` says of a resume that
is taken) ask it of that handle alone (`!LeftBehind(r, n, h)`);
`OnlyScriptCosFail` names it as the other possibility. Everything else holds with or without such a body in the run.

### A way to resume the wrong yield

A handle obtained where its operation could not yield stays pending in the same checkout too. Its completion resumes the
coroutine wherever it stands by then, with values meant for another place, and what was awaited there is still pending
(`SchedulerLateWake.OtherYieldIsResumed` is such a run). `SchedulerParks.ResumesOwnPark` says exactly when a wake-up reaches
the yield that was made for its handle: if and only if the coroutine never went on without it, that is, executed nothing
else and was resumed by nothing else while the handle was pending, and it was not left behind.

### Shutdown

`Shutdown` is private and only the destructor calls it (`src/lua/lua_runtime.cc:451-453`), when no owner of the runtime is
left that a completion handler could call it through. The model therefore settles its handlers in one step, while the
handlers of an interrupt pass and of finished coroutines run one at a time with any host step between them.

## The other parts

- `UrlSyntax.dfy`, `UrlNormalize.dfy`: percent-encoding, and cutting a URL. The source looks for `://` anywhere, so a URL
  without a scheme of its own can be cut inside its query or its fragment; `AuthorityIsOwn` says exactly when it is not,
  and `UrlOwnParts.dfy` exactly when the path and the query that RFC 3986 sees in the output are in the grammar.
  The comment in the source says that the fragment is passed through verbatim (`src/lua/http_library.cc:172-174`). Of
  `/p#x://h/ y` it is not; `FragmentIsKept` says exactly when it is.
- `ProxyParser.dfy`, `ProxyErrors.dfy`: the accepted strings are exactly the spellings of a configuration, and every other
  string is refused with one error, told by its pieces. The comment in the source says an
  empty port means the default, which holds for a missing `:port`; `host:` is refused. A port of 20 or more digits can wrap.
- `JsonTrees.dfy`, `JsonNames.dfy`, `JsonLua.dfy`: the round trips and their loss; the names that keys get; the stack. Member names are cut at a NUL when they become
  keys, and `nlohmann::json` keeps its members sorted by name, so of names that meet the last one decides. A comment in the source says that a list
  has the keys 1 to N without holes; the code only asks for positive integers, and this is what is modelled.
- `AsyncReader.dfy`: three read modes over one buffer, as views of a plain sequence of bytes.
- `AwaitBody.dfy`: who completes an `await`.

`ByteStrings.dfy` and `Wrappers.dfy` hold what these share.

## Model

| member | source | states |
|---|---|---|
| SchedulerCheckouts.CurrentExactly | src/lua/lua_runtime.cc:1094-1104 | In every state of every run a pending handle belongs to the coroutine that obtained it, in the use in which it did, if and only if no module body ended its first resume with this handle pending |
| SchedulerCheckouts.NoStaleExactly | src/lua/lua_runtime.cc:1094-1104 | The same of whole runs: all pending handles are current throughout if and only if no module body ends its first resume with a handle pending |
| SchedulerWitness.RecycledCoroutineIsResumed | src/lua/lua_runtime.cc:764-771 | A run of the runtime in which a completion for an old checkout resumes the new holder of the recycled coroutine |
| SchedulerCheckouts.ResumesOwnCheckout | src/lua/lua_runtime.cc:1190-1211 | In every run each handle causes at most one `lua_resume`, of the coroutine that obtained it; it is in the checkout that obtained it if and only if this handle was not left behind by a module body |
| SchedulerCheckouts.LateCompletionIsIgnored | src/lua/lua_runtime.cc:636-643 | A completion or sleep expiry for a handle whose coroutine was recycled, freed or reused changes nothing but the queue, unless that handle was left behind by a module body |
| SchedulerCheckouts.CompletionWakes | src/lua/lua_runtime.cc:628-643 | A completion of a pending handle resumes its coroutine once, in its own checkout and with the values it brings, interrupted or not, and then the handle is done; but for a handle left behind, and for coroutines that a script itself resumed or closed |
| SchedulerParks.ResumesOwnPark | src/lua/lua_runtime.cc:1190-1211 | A wake-up resumes its coroutine at the yield that was made for its handle if and only if the coroutine never executed anything else and was never resumed by anything else while the handle was pending, and no module body left it behind |
| SchedulerParks.StandsWhereItYielded | src/lua/lua_runtime.cc:915-921 | In every state of every run a suspended coroutine stands at the place of its last yield |
| SchedulerLateWake.OtherYieldIsResumed | src/lua/lua_runtime.cc:826-831 | A run of the runtime in which the values of one operation arrive at the yield made for another, which stays pending |
| SchedulerCheckouts.PendingIsPinned | src/lua/lua_runtime.h:283-295 | In every state of every run the pin table equals `pending_`, the coroutine of a pending handle exists, and the collector may not take it |
| SchedulerCheckouts.OnlyScriptCosFail | src/lua/lua_runtime.cc:1106-1121 | The failure branch of `CheckResumable` is reached only for coroutines that a script created, or through a handle left behind; never for one that is checked out or awaited |
| SchedulerPending.PendingExactly | src/lua/lua_runtime.h:297-300 | In every state of every run a handle is pending if and only if it was issued and no step has woken or purged it: none is lost, none comes back |
| SchedulerPending.PendingStep | src/lua/lua_runtime.cc:1094-1211 | Of every step, exactly which handles leave `pending_`: the one it wakes, and those of a coroutine that ended, was cancelled or cannot be resumed, or all at an interrupt pass or shutdown; a park alone adds one |
| SchedulerRuns.RunKeeps | src/lua/lua_runtime.cc:890-1017 | Every state of every run has the invariant of all tables |
| SchedulerRuns.StepKeeps | src/lua/lua_runtime.cc:612-822 | Every single step keeps that invariant |
| SchedulerUses.StepDecides | src/lua/lua_runtime.cc:1094-1104 | Of every step: a use that is over stays over, the use of a handle that stays pending ends only by being left behind, and its timer goes only by clearTimeout |
| SchedulerQueue.QueueStep | src/lua/lua_runtime.cc:612-690 | Of every step, which closure it schedules, said from the flags and the step alone: a completion is gated on the shutdown flag only, new work on both flags, a module that ends owes its caller a resume; the queue is otherwise the old one less the closure that ran |
| SchedulerDelivery.QueueExactly | src/lua/lua_runtime.cc:618-642 | In every state of every run the queue holds exactly the closures that were scheduled and have not been run |
| SchedulerDelivery.ScheduledIsTaken | src/lua/lua_runtime.cc:618-642 | A closure that is scheduled stays queued in every later state until a step takes it |
| SchedulerDelivery.ResumeArrives | src/lua/lua_runtime.cc:636-643 | A resume that was scheduled for a handle, by whomever, is queued until it is taken; if the handle is pending then and no shutdown has begun, its coroutine is resumed in its own checkout with exactly these values |
| SchedulerDelivery.CompletionArrives | src/lua/lua_runtime.cc:628-643 | The same of every completion that finds the shutdown flag clear, interrupted or not |
| SchedulerDelivery.ModuleArrives | src/lua/lua_runtime.cc:764-801 | The same of what a module body passes to the coroutine that required it: its values, `true` in place of none or a leading nil, or nil and the error's text |
| SchedulerDelivery.AwaitedModuleArrives | src/lua/lua_runtime.cc:774-791 | The same for a module body that was waited for, when its handler runs |
| SchedulerDelivery.LoadedArrives | src/lua/lua_runtime.cc:745-822 | The same for what `loadfile` produced, and for the message of a module that does not load |
| SchedulerStarts.StartStep | src/lua/lua_runtime.cc:612-822 | Of every step, which script it enters and on which coroutine: new work under clear flags on a coroutine that nobody had, in a use of its own; a completion on the handle's own; and no step enters another |
| SchedulerStarts.ParkObtains | src/lua/lua_runtime.cc:826-831 | A park obtains the next handle, never issued before, for the coroutine on top in its present use |
| SchedulerStarts.LastBackIsNextOut | src/lua/coroutine_pool.cc:6-38 | The coroutine given back last is the next one given out, with nothing else changed in the pool |
| SchedulerStatus.OutStep | src/lua/coroutine_pool.cc:6-60 | Of every step, which coroutine it checks out and which it takes back |
| SchedulerStatus.CheckedOutExactly | src/lua/lua_runtime.cc:923-935 | In every state of every run a coroutine is checked out if and only if new work was entered on it and since then it has not ended, its call was not cancelled, and no interrupt pass or shutdown took it back: none leaks, none is taken early |
| SchedulerStatus.StatusStep | src/lua/coroutine_pool.cc:21-27 | Of every step, what it makes of each coroutine of a script: only creating, resuming, closing and collecting by the script, its own wake-ups and its own end touch it |
| SchedulerStatus.StandingExactly | src/lua/coroutine_pool.cc:21-27 | In every state of every run a script's coroutine exists if and only if it was created and not collected since, with exactly the status those steps gave it |
| SchedulerStatus.DeadIsForever | src/lua/lua_runtime.cc:1106-1121 | A script's coroutine that ended, or was closed, is never resumed again by anything |
| SchedulerHandlers.HandlersAreConserved | src/lua/lua_runtime.cc:1133-1188 | In every run each submitted handler is in exactly one place: queued, on the call stack, in `completions_`, cancelled, or settled once |
| SchedulerHandlers.AwaitedIsSuspended | src/lua/lua_runtime.cc:1125-1127 | In every run, between closures, every key of `completions_` is a checked-out, suspended pool coroutine |
| SchedulerHandlers.InterruptPassQuiesces | src/lua/lua_runtime.cc:890-948 | After an interrupt pass nothing is pending, pinned, awaited, timed or checked out; every awaited coroutine's handler is due once, with the place where that coroutine stood; every handle issued so far is done |
| SchedulerLogs.StepKeepsStack | src/lua/lua_runtime.cc:936-946 | A handler at the top of the call stack goes only by running, and is then settled with its own result; nothing below the top changes |
| SchedulerHandlers.DueIsSettled | src/lua/lua_runtime.cc:936-946 | Through any further steps a handler that is due stays where it is, unchanged, or has been settled with the very result it was given |
| SchedulerHandlers.InterruptSettles | src/lua/lua_runtime.cc:915-946 | Once the call stack is empty again after an interrupt pass, the handler of every coroutine that was awaited is settled, once, with the place where that coroutine stood |
| SchedulerHandlers.OutcomeIsSettled | src/lua/lua_runtime.cc:1133-1188 | A script that ends settles the handler that hears of it (of its task, of the call that started it, or awaiting it) once: with `Ok` and the very values it returned, or with `Failed` and the very message it raised |
| SchedulerAwaits.AwaitStep | src/lua/lua_runtime.cc:1021-1188 | Of every step, which coroutine starts to be waited for and by whom, and which stops |
| SchedulerAwaits.AwaitedExactly | src/lua/lua_runtime.cc:1021-1188 | In every state of every run a handler waits for a coroutine if and only if that coroutine yielded in the first resume that the handler hears of, and has not ended, been cancelled or been swept since |
| SchedulerCauses.GivenExactly | src/lua/lua_runtime.cc:612-1188 | In every state of every run a handler has been given a result if and only if some step caused it: `Ok(v)` a script that returned `v`, `Failed(m)` one that raised `m`, `LoadError`, `Rejected` under a flag, `Interrupted` and `ShutDown` with the place where its coroutine stood |
| SchedulerCauses.SettledExactly | src/lua/lua_runtime.cc:612-1188 | With the call stack empty, the settlements are exactly the caused ones, and each handler has one: `Ok` means that its script returned those values |
| SchedulerInterrupts.InterruptComes | src/lua/lua_runtime.cc:890-894 | `Interrupt` with both flags clear sets the flag and adds exactly one pass to the queue, which stays queued until a step takes it |
| SchedulerInterrupts.InterruptEnds | src/lua/lua_runtime.cc:890-947 | Once no pass is queued any more and no shutdown has begun, every handler awaited when `Interrupt` was called has left `completions_` for good; with the call stack empty it is settled or was cancelled |
| SchedulerInterrupts.WaiterIsAnswered | src/lua/lua_runtime.cc:1125-1188 | A handler waits for its coroutine until it is cancelled or given a result, and never again after |
| SchedulerInterrupts.CancelledIsNeverSettled | src/lua/lua_runtime.cc:1050-1069 | A cancelled call is never given a result, before or after |
| SchedulerFlags.FlagStep | src/lua/lua_runtime.cc:890-978 | Of every step, what it makes of each flag, of the recorded fault and of the cancelled calls |
| SchedulerFlags.PausedExactly | src/lua/lua_runtime.cc:950-964 | In every state of every run: paused if and only if the last of `Pause` and `Resume` was `Pause` |
| SchedulerFlags.ShuttingDownExactly | src/lua/lua_runtime.cc:968-978 | Shutting down if and only if `BeginShutdown` or `Shutdown` was called |
| SchedulerFlags.InterruptedExactly | src/lua/lua_runtime.cc:890-960 | Interrupted if and only if some `Interrupt` came before any shutdown and no clearing has run since |
| SchedulerFlags.FaultExactly | src/lua/lua_runtime.cc:1078-1121 | The recorded fault is the first one since the record was last taken: the error of a script that nobody awaits, or a completion whose coroutine is not suspended |
| SchedulerHandlers.PassIsForever | src/lua/lua_runtime.cc:890-964 | A handle issued before an interrupt pass is never resumed and never fires again in the rest of the run, whatever is interrupted, cleared or reused later |
| SchedulerProgress.RunContinues | src/lua/timer_manager.h:33 | Along a run the logs only grow, the handle counter never goes back, and a handle that is done stays done and causes nothing |
| SchedulerTimers.TimersFireOnce | src/lua/timer_manager.cc:22-61 | In every run a timeout's function slot is given back exactly once, by firing, by clearTimeout or by CancelAll; it fires at most once and never after being cancelled; each live timer has exactly one closure; each live sleep has a pending handle |
| SchedulerTimers.SleepIsLiveExactly | src/lua/lua_runtime.cc:274-280 | In every state of every run a sleep that is pending has a live timer, with one closure of its own, if and only if no script cleared that timer |
| SchedulerTimers.PausedSleepWaits | src/lua/lua_runtime.cc:1385-1390 | Through a pause of any length, with any number of re-arms, a sleeper is not resumed; it stays pending exactly as long as no step purges it, with a live timer unless a script cleared it |
| SchedulerTimers.SleeperWakes | src/lua/lua_runtime.cc:1391-1393 | The first expiry after the pause resumes a sleeper that was never cleared once, in its own checkout, and then its handle is done; but for a handle left behind, and for coroutines that a script itself resumed or closed |
| SchedulerTimeouts.TimeoutStep | src/lua/timer_manager.cc:22-61 | Of every step, which timeout it arms and which it disarms |
| SchedulerTimeouts.TimeoutIsLiveExactly | src/lua/timer_manager.cc:22-61 | In every state of every run a timeout is live with a function if and only if a `setTimeout` gave out its handle for that function and since then it was not cleared, did not fire, and no interrupt pass or shutdown cancelled the timers |
| SchedulerPool.PoolIsPartitioned | src/lua/coroutine_pool.cc:6-38 | In every run checked-out and idle coroutines are disjoint, without duplicates, each with the registry slot it was created with, and are together all pool coroutines |
| SchedulerPool.ShutdownReleasesOnce | src/lua/coroutine_pool.cc:51-60 | Shutdown, at any point of any run, gives back each registry slot of the pool and of the timers exactly once and empties every table |
| SchedulerPool.ShutdownSettlesInPlace | src/lua/lua_runtime.cc:978-1008 | Shutdown, at any point of any run, settles each awaited coroutine once, naming the place where it stood |
| LuaRuntime.LookupsSucceed | src/lua/lua_runtime.cc:1094-1211 | In every reachable state (the invariant holds of all of them) what the methods look up is there: their preconditions hold |
| LuaRuntime.LuaRuntime.Execute | src/lua/lua_runtime.cc:612-1069 | These methods take every step of every run, with the effect that the step has there, and keep the invariant |
| LuaRuntime.LuaRuntime.RunResume | src/lua/lua_runtime.cc:639-642 | The closure of `PushResume` tests the flag a second time, and resumes only if it is still clear |
| LuaRuntime.LuaRuntime.constructor | src/lua/lua_runtime.cc:446-446 | The tables start empty, in the initial state of the runs |
| LuaRuntime.LuaRuntime.PreYield | src/lua/lua_runtime.cc:826-831 | A new handle, pinned and pending, for the coroutine's present use |
| LuaRuntime.LuaRuntime.CleanupStalePendings | src/lua/lua_runtime.cc:1094-1104 | Exactly the coroutine's handles leave `pending_`, the pin table and the timers; nothing else changes |
| LuaRuntime.LuaRuntime.ReleaseCoroutine | src/lua/lua_runtime.cc:1073-1076 | A pool coroutine that is checked out becomes idle and fresh; any other is left alone |
| LuaRuntime.LuaRuntime.RecordUnhandledError | src/lua/lua_runtime.cc:1078-1085 | The first error is kept |
| LuaRuntime.LuaRuntime.TakeUnhandledError | src/lua/lua_runtime.cc:1087-1092 | The recorded error is handed over and cleared |
| LuaRuntime.LuaRuntime.CheckResumable | src/lua/lua_runtime.cc:1106-1121 | True for a suspended coroutine; otherwise the fault is recorded, its handles are purged and it is released |
| LuaRuntime.LuaRuntime.DoResume | src/lua/lua_runtime.cc:1190-1211 | An unknown handle does nothing; a known one leaves the tables and, if its coroutine is suspended, that coroutine is resumed |
| LuaRuntime.LuaRuntime.MaybeRecycleCo | src/lua/lua_runtime.cc:1133-1188 | A finished coroutine loses its handles, is released, and its handler is due with the outcome; an error nobody awaits is recorded |
| LuaRuntime.LuaRuntime.SetCoCompleteCallback | src/lua/lua_runtime.cc:1125-1127 | The handler waits for this coroutine |
| LuaRuntime.LuaRuntime.PushTask | src/lua/lua_runtime.cc:612-625 | Rejected at once under either flag, queued otherwise; in both cases the new handler is in one place |
| LuaRuntime.LuaRuntime.PushResume | src/lua/lua_runtime.cc:636-643 | Queued unless shutting down |
| LuaRuntime.LuaRuntime.PushRun | src/lua/lua_runtime.cc:674-690 | Queued unless shutting down or interrupted |
| LuaRuntime.LuaRuntime.ProcessTask | src/lua/lua_runtime.cc:612-625 | Rejection, load error, or a coroutine entered for this task |
| LuaRuntime.LuaRuntime.ProcessTaskReturned | src/lua/lua_runtime.cc:698-743 | The promise is stored first; a task that did not yield is settled at once |
| LuaRuntime.LuaRuntime.ProcessRequireRun | src/lua/lua_runtime.cc:745-762 | Dropped under either flag; a load error goes to the caller; otherwise the module body starts |
| LuaRuntime.LuaRuntime.ProcessRequireRunReturned | src/lua/lua_runtime.cc:764-801 | The caller's resume is queued and the coroutine released without a purge, or a handler waits for the body |
| LuaRuntime.LuaRuntime.ProcessLoadFileRun | src/lua/lua_runtime.cc:803-822 | The chunk is compiled on a borrowed coroutine and the caller's resume is queued |
| LuaRuntime.LuaRuntime.Interrupt | src/lua/lua_runtime.cc:890-893 | One pass is queued, the first time the flag is set |
| LuaRuntime.LuaRuntime.InterruptCompletionPass | src/lua/lua_runtime.cc:894-947 | Tables emptied, timers cancelled, pool released, and every handler due with the place captured before any of it |
| LuaRuntime.LuaRuntime.CaptureAll | src/lua/lua_runtime.cc:915-921 | For each awaited coroutine its handler and the place where it is suspended |
| LuaRuntime.LuaRuntime.ClearInterrupt | src/lua/lua_runtime.cc:954-960 | The flag is cleared by a closure of the executor |
| LuaRuntime.LuaRuntime.Shutdown | src/lua/lua_runtime.cc:978-1017 | Once: handlers settled with their places, tables emptied, timers and pool given back |
| LuaRuntime.LuaRuntime.CallWithCallback | src/lua/lua_runtime.cc:1021-1048 | A coroutine is entered for a new host callback |
| LuaRuntime.LuaRuntime.CallWithCallbackReturned | src/lua/lua_runtime.cc:1021-1048 | The callback waits if the function yielded; otherwise the coroutine is purged and released before the callback runs |
| LuaRuntime.LuaRuntime.CancelCall | src/lua/lua_runtime.cc:1050-1069 | The callback is dropped and recorded as cancelled, the coroutine is purged and released |
| LuaRuntime.LuaRuntime.SleepExpired | src/lua/lua_runtime.cc:1385-1393 | A cancelled sleep does nothing; a live one is re-armed while paused and resumes otherwise |
| LuaRuntime.LuaRuntime.TimeoutExpired | src/lua/lua_runtime.cc:1394-1403 | A cancelled timeout does nothing; a live one gives its slot back and enters a coroutine |
| LuaRuntime.LuaRuntime.BuiltinSleep | src/lua/lua_runtime.cc:274-280 | The coroutine parks and its timer is armed |
| LuaRuntime.LuaRuntime.BuiltinSetTimeout | src/lua/lua_runtime.cc:282-295 | The function is stored and a timer with a new handle is armed |
| LuaRuntime.LuaRuntime.BuiltinClearTimeout | src/lua/lua_runtime.cc:297-302 | The timer is cancelled and its slot given back |
| RuntimeParts.TimerManager.NextHandle | src/lua/timer_manager.h:33-45 | Handles are consecutive and never reissued |
| RuntimeParts.TimerManager.AddSleepTimer | src/lua/timer_manager.cc:22-30 | The handle is active with one closure of its own |
| RuntimeParts.TimerManager.AddTimeoutTimer | src/lua/timer_manager.cc:32-42 | A new handle is active with one closure of its own |
| RuntimeParts.TimerManager.CancelTimer | src/lua/timer_manager.cc:44-52 | The handle is inactive; a function slot is given back |
| RuntimeParts.TimerManager.CancelAll | src/lua/timer_manager.cc:54-61 | No timer is active; every function slot is given back once |
| RuntimeParts.CoroutinePool.Acquire | src/lua/coroutine_pool.cc:6-19 | The last idle coroutine, or a new thread with a new slot, is checked out in a new use |
| RuntimeParts.CoroutinePool.Release | src/lua/coroutine_pool.cc:21-38 | Checked out becomes idle, with the same slot; anything else is untouched |
| RuntimeParts.CoroutinePool.ReleaseAll | src/lua/coroutine_pool.cc:40-49 | All checked-out coroutines become idle, reset, in walking order |
| RuntimeParts.CoroutinePool.Shutdown | src/lua/coroutine_pool.cc:51-60 | Every slot, active and idle, is given back once |
| UrlNormalize.NormalizeUrl | src/lua/http_library.cc:214-239 | Computes `Normalize`, the cut URL with path and query encoded |
| UrlNormalize.AppendUrlComponent | src/lua/http_library.cc:192-212 | Appends exactly the encoding of the component, escapes kept whole inside it |
| UrlNormalize.MeaningIsKept | src/lua/http_library.cc:192-239 | For every byte string path and query decode to the same bytes before and after |
| UrlSyntax.EncodeKeepsMeaning | src/lua/http_library.cc:192-212 | Encoding a component does not change what it decodes to (section 2.1 of RFC 3986) |
| UrlNormalize.StructureIsKept | src/lua/http_library.cc:214-239 | The output is cut at the same places: the scheme, authority and fragment of the source's own cut stay, its path and query are encoded |
| UrlNormalize.FragmentIsKept | src/lua/http_library.cc:172-174 | What follows the first `#` is passed through unchanged if and only if no `#` precedes the first `://`, or there is nothing to encode |
| UrlNormalize.SchemeInFragmentRewritesIt | src/lua/http_library.cc:215-224 | A URL whose fragment holds `://` has its fragment rewritten |
| UrlNormalize.SplitExactly | src/lua/http_library.cc:214-224 | The cut, said without searching: one decomposition and only one |
| UrlNormalize.NormalizeIsIdempotent | src/lua/http_library.cc:165-174 | Normalising twice is normalising once, on every input |
| UrlNormalize.LeavesLegalAlone | src/lua/http_library.cc:165-174 | A URL is unchanged exactly when its path and query are in the grammar already |
| UrlNormalize.OutputIsLegal | src/lua/http_library.cc:180-190 | The emitted path and query match sections 3.3 and 3.4 of RFC 3986 |
| UrlSyntax.EncodeFixes | src/lua/http_library.cc:183-190 | A component is left alone exactly when it is in the grammar |
| UrlSyntax.LegalIsPchar | src/lua/http_library.cc:183-190 | The legal bytes are those of the grammar |
| UrlSyntax.IllegalBecomesEscape | src/lua/http_library.cc:192-212 | A byte that is not legal becomes a `%` and two upper-case hexadecimal digits of its value |
| UrlSyntax.EscapeDigits | src/lua/http_library.cc:176-194 | Digits of either case make an escape; those emitted are upper case |
| UrlNormalize.OutputAtMostTriples | src/lua/http_library.cc:226-238 | The output is at least as long and at most three times as long |
| UrlNormalize.EncodeScans | src/lua/http_library.cc:192-212 | Encoding neither makes nor breaks a `://` |
| UrlNormalize.AbsoluteUrlIsCutRight | src/lua/http_library.cc:215-224 | An absolute URL with an authority is cut where RFC 3986 cuts it, whatever query and fragment hold |
| UrlNormalize.AuthorityIsOwn | src/lua/http_library.cc:216-217 | The authority found is that of the URL's own scheme exactly when no delimiter precedes the first `://` |
| UrlNormalize.SchemeInQueryHidesThePath | src/lua/http_library.cc:216-219 | A URL whose query holds `://` keeps an illegal path |
| UrlOwnParts.OwnPartsAreLegal | src/lua/http_library.cc:165-174 | The path and the query that RFC 3986 sees in the output are in the grammar if and only if those it sees in the part passed through as scheme and authority are |
| UrlOwnParts.LeadingIsLegal | src/lua/http_library.cc:165-174 | They are whenever no delimiter precedes the first `://`, or there is none |
| ProxyParser.ParseProxy | src/lua/http_library.cc:80-161 | Computes `Parse`, with the same error in each case |
| ProxyParser.ReadPort | src/lua/http_library.cc:143-144 | The `uint64_t` accumulator |
| ProxyParser.AcceptsExactlySpellings | src/lua/http_library.cc:80-161 | A configuration is returned exactly for its well-formed spellings |
| ProxyParser.PrintParses | src/lua/http_library.cc:78-161 | Printing and parsing gives the same configuration: any password, brackets, default port |
| ProxyParser.ConfigRoundTrips | src/lua/http_library.cc:78-161 | The same, for a caller's configuration |
| ProxyParser.PortValueWraps | src/lua/http_library.cc:143-144 | The accumulator holds the number modulo 2^64 |
| ProxyParser.PortIsJudgedByItsValue | src/lua/http_library.cc:142-148 | A port is accepted if and only if its number is in 1 to 65535, or it is 2^64 or more and the remainder is; up to 19 digits there is no wrap |
| ProxyParser.LongPortIsAccepted | src/lua/http_library.cc:142-149 | Port 2^64 + 80 is accepted |
| ProxyErrors.RefusesExactly | src/lua/http_library.cc:80-161 | Each error is given exactly when the pieces of the string (scheme, what follows the last `@`, host, rest) are wrong in the way it names |
| ProxyErrors.BareHostGetsDefaults | src/lua/http_library.cc:78-161 | A bare host gets port 8080 and no credentials |
| JsonTrees.RoundTripIsNorm | src/lua/json_lua.h:106-182 | Pushing any tree and reading it back gives exactly its normal form: null members and trailing nulls gone, empty arrays objects, names cut at a NUL with the last of those that meet |
| JsonTrees.NormIsIdempotent | src/lua/json_library.cc:17-58 | Normal forms are their own normal forms |
| JsonTrees.NormIsWhatLuaSees | src/lua/json_library.cc:17-58 | Two trees become the same Lua value exactly when their normal forms are equal |
| JsonTrees.TableRoundTrip | src/lua/json_lua.h:125-177 | A Lua tree comes back unchanged exactly when each table has only positive integer keys, holes allowed, or only NUL-free string keys |
| JsonTrees.LastMemberDecides | src/lua/json_library.cc:45-53 | Of members whose names meet when cut at a NUL, the last in the order of names is the entry; if it is a null there is none |
| JsonTrees.CleanMembersStay | src/lua/json_library.cc:45-53 | NUL-free names do not meet: each member that is not null is there under its own name, and nothing else is |
| JsonNames.IntegerName | src/lua/json_lua.h:160-174 | The name of an integer key reads back as that integer: a `-` if and only if it is negative, no leading zero |
| JsonNames.EntriesUnderTheirNames | src/lua/json_lua.h:160-174 | When no two keys meet, each entry of a table with integer and string keys is a member under the decimal of its key or under the string itself, and there is no other member |
| JsonNames.OtherKeysShareAName | src/lua/json_lua.h:160-174 | Keys that are neither strings nor integers all have the empty name |
| JsonNames.TableShape | src/lua/json_lua.h:125-177 | A table becomes an array if and only if it has keys and all are positive integers; the array ends at the greatest and has nulls where keys are missing |
| JsonNames.ScalarsEncode | src/lua/json_lua.h:106-124 | What each value that is not a table becomes; a function, a userdata or a thread becomes null |
| JsonNames.ScalarsPush | src/lua/json_lua.h:23-42 | What each value that is not a container is pushed as; integers modulo 2^64 into the signed range |
| JsonNames.EncodingExists | src/lua/json_lua.h:106-182 | Every tree of Lua values has an encoding |
| JsonLua.LuaToJson | src/lua/json_lua.h:106-182 | Whatever the nesting and the walking order, the stack is left as found and the result encodes the value |
| JsonLua.ScanKeys | src/lua/json_lua.h:131-149 | Whether all keys are positive integers, the greatest, and a clean stack after either early break |
| JsonLua.ListToJson | src/lua/json_lua.h:152-159 | One item per index up to the greatest key, holes as nulls |
| JsonLua.ObjectToJson | src/lua/json_lua.h:160-174 | Every entry under its name; keys with the same name compete |
| JsonLua.PushJsonValue | src/lua/json_library.cc:17-58 | For every tree exactly one value is added to the stack, the one specified (`Pushed`) |
| JsonLua.PushArray | src/lua/json_library.cc:36-44 | The table of an array, null items leaving holes |
| JsonLua.PushObject | src/lua/json_library.cc:45-53 | The table of an object, its members stored in the order of their names: null members dropped, a later name replacing those it meets |
| JsonLua.PushJson | src/lua/json_lua.h:23-65 | For every tree exactly one value is added, the one specified; strings keep their NULs |
| JsonLua.PushJsonArray | src/lua/json_lua.h:50-58 | The same for its arrays |
| JsonLua.PushJsonObject | src/lua/json_lua.h:43-49 | The table of an object, in the same order |
| AsyncReader.ReadHandle.Read | src/lua/async_io_library.cc:281-352 | For every way the bytes arrive, the value and what is left depend only on buffer and stream together |
| AsyncReader.ReadHandle.DoReadLine | src/lua/async_io_library.cc:212-252 | The next line of buffer and stream together; dropped if closed while waiting |
| AsyncReader.ReadHandle.ReadCount | src/lua/async_io_library.cc:315-345 | The next min(n, remaining) bytes, or nil when none remain; zero bytes is the empty string |
| AsyncReader.StripTrailingNewline | src/lua/async_io_library.cc:204-208 | The longest prefix that does not end in a newline or carriage return |
| AsyncReader.ReadHandle.Close | src/lua/async_io_library.cc:391-403 | The buffer is dropped, once |
| AsyncReader.ReadLines | src/lua/async_io_library.cc:212-252 | Reading lines until nil ends and gives the lines of the plain sequence of bytes, however they arrive |
| AsyncReader.LinesArePieces | src/lua/async_io_library.cc:212-252 | Every content is cut at its newlines into pieces, and its lines are these, stripped, without a last piece of which nothing is left |
| AsyncReader.LinesComeBack | src/lua/async_io_library.cc:204-208 | Lines written out are read back unchanged if and only if none ends in a carriage return |
| AsyncReader.ReadTakesPrefix | src/lua/async_io_library.cc:281-352 | A read takes a prefix and gives it back, lines stripped; nil only when nothing is left |
| AsyncReader.BytesAreConserved | src/lua/async_io_library.cc:281-352 | Over any run of reads in any modes no byte is lost, repeated or moved |
| AsyncReader.ByteReadsAdd | src/lua/async_io_library.cc:315-345 | Reading m and then n bytes is reading m + n |
| AsyncReader.ReadBytesGives | src/lua/async_io_library.cc:315-345 | A read of n bytes takes min(n, remaining), gives exactly them, and nil if and only if n is positive and nothing remains |
| AsyncReader.ReadAllGives | src/lua/async_io_library.cc:298-313 | A read of all gives everything that remains, and nil if and only if nothing does |
| AsyncReader.StripExactly | src/lua/async_io_library.cc:204-208 | Stripping cuts every newline and carriage return off the end, and nothing else |
| AwaitBody.SettlesOnce | src/lua/lua_runtime.cc:328-440 | For every interleaving of resolve, reject, yields and the body's end, the first settlement alone completes the handle |
| AwaitBody.RaisingRejects | src/lua/lua_runtime.cc:379-400 | A body that raises unsettled rejects once, with the error's text; a later error changes nothing |
| AwaitBody.ReturningNeverRejects | src/lua/lua_runtime.cc:381-386 | A body that returns, also through a continuation entered with `LUA_YIELD`, completes nothing |
| AwaitBody.CompletedExactly | src/lua/lua_runtime.cc:328-400 | The handle is completed with given values, and no others, if and only if the first event that offers any offers these: a resolve its arguments, a reject nil with its text or `rejected`, a raise nil with its text or the name of its type |
| AwaitBody.AwaitContext.Resolve | src/lua/lua_runtime.cc:328-344 | The first settlement completes the handle with these values |
| AwaitBody.AwaitContext.Reject | src/lua/lua_runtime.cc:346-368 | The first settlement completes the handle with nil and a text |
| AwaitBody.AwaitContext.FinishAwaitBody | src/lua/lua_runtime.cc:379-400 | Only an error status rejects |
| AwaitBody.AwaitContext.BodyEnds | src/lua/lua_runtime.cc:401-407 | The status Lua gives a body that returned, returned after yielding, or raised |

## Left out

- Sockets, files, pipes, processes, the HTTP client, asio and sol2: a completion arrives later, that is all.
- WebSocket, filesystem and other libraries, resource and code providers, extensions, logging, stack traces, error texts.
- Whether a parked coroutine is ever resumed: a script may park for good, and a closed handle drops its reader.
- Settling after `BeginShutdown` without an interrupt pass: pass and `Shutdown` return early and the handlers stay in `completions_`.
- The order of closures and deadlines: queued closures run in any order, a superset of what delays allow.
- 64-bit wrap-around of the handle counter.
- `PushRelease`, `CallLuaFunction`, script references (`LuaRef`): they do not touch the tables modelled.
- `RemoveCoCompleteCallback`: it erases from `completions_`, but nothing in the repository calls it.
- A chunk that does not load in `DoFileAsync` or `DoBufferAsync`: a coroutine is borrowed and given back with no resume, as `ProcessTask` does for a script that does not load.
- `PushResumeDirect` takes the same step as the closure of `PushResume`; the values it pushes are the step's arguments.
- `InterruptHook` is a yield that the script makes without a handle.
- Coroutine acquisition by the host and the call that follows are one step; so are `CallAsync`, `DoFileAsync` and `DoBufferAsync`.
- Cached modules of `require`, and what a module returns beyond the handles and coroutines involved.
- A script that resumes or closes a pool coroutine it got from `coroutine.running`.
- JSON text and its numbers' formatting; Lua tables that contain themselves; stack overflow in deep trees; sharing between tables.
- AsyncReader.ReadHandle.Read: gives no value when the handle is closed while the read waits, because the source then resumes nobody.
- Overlapping reads on one handle, negative byte counts, the format argument of `read`, and writing.
- What the HTTP client does with a URL or a proxy once they are normalised and parsed.
- `await` with more than one argument, where the table of the closures is not the one expected.
