# Verified model of libasync

Dafny models of the parts of libasync whose correctness must survive arbitrary user callbacks or an
arbitrary kernel, and proofs of what those parts promise. `dafny verify dfyconfig.toml` checks everything.

## What is modelled

* **Promise engine** (`headers/promise.h`, `src/promise.cpp`). Promise cells with a status, two wrapper
  lists and a `pending_callback` flag; the thread's queue of pending callbacks; `promise_task`, whose two
  loops walk over lists that callbacks append to. User code is a finite `Script` (module `Scripts`): its
  data flow is given by arbitrary total functions, and everything it can do to the library is a
  constructor - create, settle and follow promises, register handlers of either kind, call async
  functions, await, add permanent and oneshot tasks, throw. A `PromiseCtx` exists for promises made with
  an executor only (lines 264-267), so calls on others have no effect in the model.
* **Async functions** (`headers/async_func.h`), on the same state: an await arms a `then` and a `_catch`
  that resume the generator under the function, and suspends it.
* **Generators** (`headers/generator.h`), nested to any depth: bodies are finite interaction trees that
  yield, raise, resume other generators and delegate with `yield_from`.
* **Socket write engine** (`src/socket.cpp`, `src/Linux/socket1.cpp`): buffer, byte counter and queue of
  write promises, and the status with the promise of `connect`, which connecting, the end of the incoming
  stream and `close` change, against a kernel that answers every call as it likes.
* **Task loop** (`src/taskloop.cpp`): one pass over permanent and oneshot tasks, both queues growing under
  the pass, exceptions included.

| modules | content |
|---|---|
| `Scripts`, `Promises` | the engine as a state machine on values |
| `Weights`, `Invariant`, `Draining` | what every operation keeps, and why a drain ends |
| `Equations`, `Settling`, `FixedPoints`, `Solutions` | what promises come to by their code and by equations, and that a drain computes it |
| `Guarantees`, `DrainOrder`, `Chains`, `Schedules`, `Exchanges`, `TaskLoops`, `Passes` | the theorems over whole runs |
| `Runtime` | the engine on objects that are updated in place, proved to do what the state machine does |
| `Generators`, `GeneratorLaws`, `GeneratorValues`, `GeneratorCrashes`, `GeneratorObjects` | generators on values, their laws, what their bodies receive, when they crash, and the objects |
| `Sockets`, `SocketAnswers`, `SocketObjects` | the write engine on values with its laws, what its calls answer, and the object |

## Main results

* In any run of any code, after a drain, every promise has come out as its own code does
  (`Guarantees.OutcomeIsCourse`): step by step in direct style, with the outcomes of the awaited promises,
  the code comes to an end that gives the promise its fate, or to an await of a pending promise; and the
  promises it makes on its way are there, in order, with the origins that this evaluation gives them. Only
  roots - promises made with an executor - on which several calls were made are left aside: there the order
  of events decides.
* Where the code makes no root, that is an equation in the fates of the promises it was given
  (`Guarantees.OutcomeIsEquation`), whatever else it does to the library: each call of an async function
  stands for what its body comes to, each `then`/`_catch` for what the handler does. What the other promises'
  code does is immaterial. Nothing is ever settled without a cause (`Guarantees.NothingFromNothing`). Chains
  of `then`, adoption chains, cycles of any kind and direct-style evaluation of async functions are
  consequences (module `Chains`).
* What a promise holds is what its handlers and the functions that await it receive, behind all they had
  received before (`Chains.HandlerReceives`, `Chains.AwaitIsTransparent`); the same for what is sent or thrown
  into a generator, and for what an inner one answers (module `GeneratorValues`).
* If all promises have such an equation, the outcomes are the least fixed point of the equations, which is
  unique (`Guarantees.OutcomesAreLeastFixedPoint`, `Solutions.LeastIsUnique`). If moreover handlers and async
  bodies settle no roots, running `promise_task` at other moments changes no outcome
  (`Schedules.ScheduleIrrelevant`, `Schedules.InterleavingIrrelevant`), nor do two neighbouring blocks of
  code that change places (`Exchanges.ExchangeIrrelevant`).
* For all user code in which each async function awaits through its own context: the queue invariant at every
  point of a drain, termination of the drain, every handler at most once and exactly once after a drain if
  its promise went its way, registration order, no stranded callback, and one armed resumption for each
  suspended async function. `Guarantees.AwaitArmsOnceIff` says what an await through a context that was
  copied out of its function does to the last of these.
* Promises are called back in the order in which they were queued, each of them completely before the next
  (`DrainOrder.SettledFirstServedFirst`), and a pass of the task loop is a run in which each task is one event
  (`Passes.PassIsRun`), so that all this holds of it.
* With `promise_task` first, whether a pass of the task loop ends by an exception, and whether it leaves
  oneshots behind, is decided by the two queues after the drain and the code they hold
  (`TaskLoops.OneshotsLeftIff`).
* Driven in any way, a program of generators gives the answers of the conversation with its bodies' trees
  (`GeneratorLaws.FollowsTree`); `yield_from` is a graft, from wherever it is reached and whatever the
  inner generator does; re-entry is refused.
* Bytes are conserved exactly when no hard write error follows a partial send. A write promise is resolved
  exactly when its target was reached at the end of some writable event after it was given out. What every
  call answers, and when the status changes, is told from the kernel's answers and the events alone
  (module `SocketAnswers`).

## Where the code does not do what is claimed for it

The model follows the code. `README.md` of the repository (lines 5 and 19) calls the promises
Promises/A+ compliant; four of its sections do not hold, and the lemmas named here say when they do.

* Sections 2.2.7.3 and 2.2.7.4: `then` on a promise that is or gets rejected, and `_catch` on one that is
  or gets resolved, leave the promise they return pending for ever, whatever the handler
  (`Guarantees.ChildNeedsParent`). `Chains.ChildComesOut` and `Chains.ChildSettlesIff` say exactly what
  becomes of it, `Chains.RejectionNotPassedOn` and `Chains.ValueNotPassedOn` are instances.
* Section 2.3.2.1: `resolve(promise)` leaves the outer promise PENDING, and a later call on it may win.
  `Chains.AdoptionLocksIff` says when it cannot.
* Section 2.3.1: there is no check for a promise that adopts itself. `Chains.AdoptionCyclePending` shows
  that such a promise, and any circle of adoptions, of promises returned by handlers and of awaits, stays
  pending; `Chains.SelfAdoptionInstance` is an instance.

Others:

* A task that throws leaves `run_once` before the oneshot queue is cleared, so oneshots that have run are
  run again by the next pass (`TaskLoops.OneshotsLeftIff` for when, `TaskLoops.RunsAgain`,
  `TaskLoops.RunsAgainInstance`).
* A hard error of `write` is thrown before the bytes already sent are taken off the buffer, so they are
  sent again (`Sockets.ConservedIff`, `Sockets.FailureResends`).
* `write` moves the byte counter but does not look at the queue of write promises: a promise whose bytes
  are all sent by a later `write` waits for the next writable event (`Sockets.ResolvedIff`,
  `Sockets.ReachedButWaiting`).
* A connection that fails leaves the promise of `connect` waiting, and so does a peer that closes before the
  socket is told that it is connected: the reactor reads first, finds the end of the stream and makes the
  socket HALF_CLOSED (`Sockets.ConnectWaitsIff` for exactly when, `Sockets.FailedConnectionWaits`,
  `Sockets.EarlyEndWaits`).
* `close` on a connected socket gives the descriptor away and leaves the socket HALF_CLOSED; a second `close`
  does nothing (`Sockets.LocalCloseHalf`).
* An `AsyncCtx` can be copied out of its function. An await through it while the function is suspended or
  done registers its callbacks before it throws, and they stay (`Guarantees.AwaitArmsOnceIff`).
* After a `_throw` the pointer to the value sent in is null. A body that catches the exception and then
  delegates to an unfinished generator reads through it (`GeneratorCrashes.CrashesIff` for exactly when,
  `GeneratorCrashes.CrashInstance`). The model stops such a generator in a state of its own, CRASHED.
* `Promise<void>::resolved()` and `rejected()` settle a pending promise and so put it into the pending
  callback queue, unlike those of other types; the model keeps the difference (`isVoid`).

## Model

| member | source | states |
|---|---|---|
| Runtime.Thread.Allocate | headers/promise.h:240-244 | a new pending promise, without wrappers and not flagged; all others as before |
| Runtime.Thread.ResolveImpl | headers/promise.h:167-179 | a pending promise becomes resolved, flagged and queued last; a settled one is left alone; no handler runs |
| Runtime.Thread.RejectImpl | headers/promise.h:190-204 | the same for an error |
| Runtime.Thread.AssociateStatus | headers/promise.h:207-232 | the outer promise takes the inner fate now, or an internal wrapper is put at the end of both lists of the pending inner promise |
| Runtime.Thread.ResolveWith | headers/promise.h:181-188 | a pending promise is associated with the other one and stays pending if that one is; a settled promise is left alone |
| Runtime.Thread.NewSettledPromise | headers/promise.h:269-294 | `resolved` and `rejected`: settled at once and not queued; for `Promise<void>` queued (lines 474-491) |
| Runtime.Thread.Then | headers/promise.h:297-343 | the new promise; the handler last in the fulfilled list, and a settled unflagged promise flagged and queued, unless the promise is rejected |
| Runtime.Thread.Catch | headers/promise.h:352-395 | the same with the roles of value and error exchanged |
| Runtime.Thread.AwaitImpl | headers/async_func.h:16-42 | both callbacks that resume the generator are registered, and it is suspended with what it awaits |
| Runtime.Thread.CallAsyncFunc | headers/async_func.h:76-97 | one new promise, one new generator, and the body run to its first suspension or to its end |
| Runtime.Thread.Complete | headers/async_func.h:86-91 | the promise of an async function takes the value, the promise or the exception that its body ended with; nothing happens while it is suspended |
| Runtime.Thread.ResumeGenerator | headers/generator.h:194-262 | as an await uses it: a suspended generator goes on with the value or where the error is caught, a finished one ignores a value and gives an error back, a running one refuses |
| Runtime.Thread.FulfillChild | headers/promise.h:526-579 | what a handler did becomes an inner promise, and the promise of `then`/`_catch` is associated with it |
| Runtime.Thread.CallWrapper | headers/promise.h:149-154 | one wrapper of the promise at the cursor: its handler is called and its child served, or the outer promise takes the fate |
| Runtime.Thread.CallWrappers | headers/promise.h:147-154 | the list that the status selects is called back to its end although it grows meanwhile; the drain goes where it would have gone; it terminates |
| Runtime.Thread.CallBack | headers/promise.h:146-160 | the same followed by the clearing of both lists and of the flag; work decreases, or the queue gets shorter without new work |
| Runtime.Thread.PromiseTask | src/promise.cpp:9-14 | the loop over the growing queue ends with exactly the state that the drain of the state machine reaches, and the queue empty |
| Runtime.Thread.PromiseInit | src/promise.cpp:18-23 | a new, empty pending callback queue, and `promise_task` behind the permanent tasks that the loop already has; nothing else changes |
| Runtime.Thread.Add | src/taskloop.cpp:23-25 | a permanent task joins the end of its queue |
| Runtime.Thread.AddOneshot | src/taskloop.cpp:28-30 | a oneshot task joins the end of its queue |
| Runtime.Thread.MakeCall | headers/promise.h:264-395 | one library call of user code: create, settle, follow, register, add a task |
| Runtime.Thread.PerformPermanents | src/taskloop.cpp:34-35 | the permanent tasks one after the other, those added on the way included, up to the first that throws; the loop ends |
| Runtime.Thread.PerformOneshots | src/taskloop.cpp:36-37 | the oneshots in order, those pushed on the way included, up to the first that throws |
| Runtime.Thread.RunLoopOnce | src/taskloop.cpp:33-39 | one pass; the oneshot queue is emptied only if nothing threw |
| Invariant.ExecInv | headers/promise.h:167-395 | any user code, however nested, keeps the engine's invariant, rewrites no settled fate, and runs no handler: none runs inside `then`, `resolve` or `reject` |
| Invariant.RegisterLists | headers/promise.h:314-342 | `then`/`_catch` change nothing but the end of one list, and that only on a pending promise or one settled their way |
| Draining.NextHandlerReady | headers/async_func.h:17-41 | a handler about to be called belongs to the promise that calls back, and if it resumes a generator, that generator is suspended on this very promise by this very await: never RUNNING or DONE |
| Draining.CallHandlerInv | headers/promise.h:330-340 | whatever a handler does, the invariant holds afterwards, no generator is left running, and exactly this handler was logged |
| Draining.StepInv | headers/promise.h:146-160 | at every point of a drain, exactly the flagged promises are queued, each once and settled, and a settled unflagged one has empty lists; each step uses up work or shortens the queue without adding work |
| Draining.DrainInv | src/promise.cpp:9-14 | a drain ends, with the queue empty and the invariant intact, whatever finite handlers do |
| Weights.ExecTotal | headers/promise.h:207-232 | running code adds no more work than its own weight: with `Draining.StepInv`, why the growing loops end |
| FixedPoints.DrainedOutcome | headers/promise.h:146-395 | in a drained state every promise, whatever its code, has come out as that code does: a root on which at most one call was made, and any other promise |
| FixedPoints.DrainedEquation | headers/promise.h:146-395 | in a drained state each lawful promise - a root called at most once, or one whose code makes no root - has the fate that its equation gives it, whatever the others do |
| FixedPoints.DrainedIsLeastFixedPoint | headers/promise.h:146-395 | if all promises are lawful, a drained state is the least fixed point of the equations |
| FixedPoints.StepSolving | headers/promise.h:146-160 | every step of a drain keeps the solving invariant: a settled promise has the outcome of its code as cause, a pending one has something on its way, every internal wrapper and every suspended body stands where its promise's code stands, nothing is settled beyond what code and equations lead to |
| Settling.AssociateSolving | headers/promise.h:207-232 | adoption keeps it, for an outer promise whose code has ended with the inner promise |
| Settling.RegisterSolving | headers/promise.h:314-342 | registration of any handler keeps it |
| Settling.ExecSolving | headers/async_func.h:67-98 | any code keeps it; and code that serves a promise ends as that promise's own code does, library calls and calls of async functions on the way included |
| Solutions.SolveIsLeast | headers/promise.h:146-395 | every system of equations has a least fixed point, and rounds of plain evaluation, as many as there are promises, compute it |
| Solutions.SolveIsFixedPoint | headers/promise.h:146-395 | what the rounds compute satisfies the equation of every promise |
| Solutions.LeastIsUnique | headers/promise.h:146-395 | there is no other least fixed point |
| Solutions.SolveRenamed | headers/promise.h:146-395 | a system has the same solution under other handles, in any order, and inside any larger system |
| Guarantees.OutcomeIsCourse | headers/promise.h:146-395 | any run of any code: after the last drain every promise, but for roots called several times, has come out as its code does |
| Guarantees.OutcomeIsEquation | headers/promise.h:146-395 | any run of any code: after the last drain each promise whose code makes no root has the fate of its equation, library calls of that code included |
| Guarantees.NothingFromNothing | headers/promise.h:167-232 | any state of any run: promises are settled no further than any bound that their equations, or the outcomes of their code, respect |
| Guarantees.ChildNeedsParent | headers/promise.h:318-342 | any state of any run: the promise of `then`/`_catch` is settled only if its parent settled that way, whatever the handler does |
| Guarantees.OutcomesAreLeastFixedPoint | headers/promise.h:146-395 | if all promises of a run are lawful, the fates after the last drain of any interleaving are the least fixed point of the equations |
| Guarantees.OutcomesAreLeastSolution | src/promise.cpp:9-14 | so every fate is the one that evaluating the equations round by round computes, with no queue, flag or wrapper |
| Schedules.ExecRenamed | headers/promise.h:264-395 | the same code makes the same promises and the same calls, up to their handles, whatever has been drained before |
| Schedules.DrainCalm | src/promise.cpp:9-14 | a drain of handlers that settle and make no roots makes no call on any promise, and makes only such promises |
| Schedules.ScheduleIrrelevant | src/promise.cpp:9-14 | wherever `promise_task` is run between the blocks of a program whose handlers and async bodies settle and make no roots, each promise ends with the fate that solves the equations which the blocks alone, without any drain, set up |
| Schedules.InterleavingIrrelevant | src/promise.cpp:9-14 | two schedules of one program agree on every promise |
| Schedules.ReorderIrrelevant | headers/promise.h:167-343 | so do two programs whose blocks set up the same equations in another order |
| Schedules.CallsCommute | headers/promise.h:167-343 | a call of `resolve`/`reject` may change places with any operation that is no call on the same promise: the equations are the same |
| Exchanges.ScriptsExchange | headers/promise.h:167-343 | two scripts that do not name each other's promises make the same promises and calls in either order, if no root gets two calls |
| Exchanges.ExchangeIrrelevant | headers/promise.h:167-343 | two programs that differ in the order of two such neighbouring blocks, wherever `promise_task` is run in either, give each promise the same fate |
| Guarantees.AtMostOnce | headers/promise.h:146-160 | over any run each handler runs at most once, and only if its promise settled its way, with that value or error |
| Guarantees.ExactlyOnceAfterTask | src/promise.cpp:9-14 | after `promise_task`: exactly once if it did, not at all if not |
| Guarantees.NothingStranded | src/promise.cpp:9-14 | after `promise_task` the queue is empty, nothing is flagged, and every wrapper in the system sits on a pending promise |
| Guarantees.RegistrationOrder | headers/promise.h:146-160 | the handlers of one promise run in registration order with the same argument, those registered during its own callback included |
| DrainOrder.JoinsIff | headers/promise.h:167-395 | exactly which library call puts which promise into the queue, and that it is put at the end: one of `Promise<void>::resolved`, a registration on a promise that went that way and does not wait, or a call that settles a root |
| DrainOrder.ExecQueue | headers/promise.h:167-395 | whatever code does, the promises that wait to be called back keep their places, and others only join behind them |
| DrainOrder.FirstServed | src/promise.cpp:9-14 | a drain calls back the first so many promises of the queue, every handler that listens to them, before it calls a handler of any other |
| DrainOrder.SettledFirstServedFirst | src/promise.cpp:9-14 | so of two promises in the queue, every handler of the one in front runs before any handler of the other |
| Guarantees.NeverBothWays | headers/promise.h:147-154 | no promise runs both handlers for a value and handlers for an error |
| Guarantees.FirstOutcomeForever | headers/promise.h:167-204 | a settled promise keeps its first outcome in all continuations, and code outside `promise_task` runs no handler |
| Guarantees.SuspendedArmedOnce | headers/async_func.h:17-41 | a suspended async function has callbacks on exactly one promise, one for each way it may still go; any other function has none that can fire |
| Guarantees.AwaitArmsOnceIff | headers/async_func.h:17-41 | an await through the context of any generator leaves that generator with one arming if and only if it is RUNNING; if not, the callbacks stay although the await throws |
| Guarantees.StrayCallback | headers/generator.h:194-262 | what a callback of such a stray await does: to a function that is done or running nothing, and the promise of `then`/`_catch` gets a blank value, the awaited error back, or ALREADY_RUNNING |
| Guarantees.AwaitResumesOnce | headers/async_func.h:17-41 | of the two callbacks of one await at most one ever runs |
| Chains.AsyncFollowsBody | headers/async_func.h:67-98 | in any program, after a drain: in direct style, with the outcomes of the awaited promises, the body of any async function comes to an end that gives its promise the fate it has, or to an await of a pending promise, its promise being pending; the promises it makes on the way are there with their origins, in order |
| Chains.AsyncIsDirectStyle | headers/async_func.h:67-98 | if the body makes no root: the promise has the direct-style result of the body, each await replaced by the awaited value or raised error, each call of an async function by what its body comes to, each `then`/`_catch` by what the handler does; it is settled if and only if every promise that this evaluation awaits or returns is |
| Chains.AwaitReceives | headers/async_func.h:16-42 | the body goes on with the awaited value behind all values it had received, or, where it catches, with the error behind all errors; what it had before stays in place |
| Chains.AwaitIsTransparent | headers/async_func.h:16-42 | an async function that returns what it awaited, and rethrows what it caught, has exactly the fate of the promise it awaits |
| Chains.AwaitsAccumulate | headers/async_func.h:16-42 | after two awaits the body has both values, in their order, behind those it captured |
| Chains.HandlerReceives | headers/promise.h:526-579 | the value or the error of a promise reaches its handler, behind all that its code had received before; `then` with a handler that returns what it was given, and `_catch` with one that throws it, have exactly the fate of their parent |
| Chains.HandlerQueues | headers/promise.h:526-579 | what a handler's end puts into the queue: after a value or an exception the new inner promise, if the handler returns `void`, and then the pending child; after a promise no new one, and the child if that promise is settled |
| Chains.SettledQueuedIff | headers/promise.h:474-491 | `resolved` and `rejected` are queued at once if and only if they are those of `Promise<void>`; with a handler of their side they are queued once in either case |
| Chains.SettledIgnoresCalls | headers/promise.h:167-204 | a call on a settled promise, to settle it again or to follow another one, does nothing |
| Chains.ThenChainComposes | headers/promise.h:330-340 | in any program, promise `k` of a chain of `then` over any promise holds the `k`-fold composition of the handlers, these ending with values or exceptions, whatever they do to the library before |
| Chains.ThenChainBreaks | headers/promise.h:318-320 | behind a rejected promise of the chain every promise is pending, in every state of every run, whatever the handlers and the rest of the program do |
| Chains.AdoptionChain | headers/promise.h:207-232 | in any program, every promise of an adoption chain that no other call touched has the fate of the innermost |
| Chains.CirclePending | headers/promise.h:181-232 | in every state of every run, promises none of which comes out as anything while the others are pending stay pending |
| Chains.AdoptionCyclePending | headers/promise.h:181-232 | so cycles of adoption, self-adoption included, of `then`, of promises that handlers return and of awaits stay pending |
| Chains.ChildComesOut | headers/promise.h:297-395 | in any program, with any handler: the promise of `then`/`_catch` has the outcome of its handler if its parent settled that way, and is pending if not |
| Chains.ChildSettlesIff | headers/promise.h:297-395 | with a handler that makes no root, it settles if and only if its parent settled that way and the handler's result is settled |
| Chains.RejectionNotPassedOn | headers/promise.h:318-320 | an instance: `then` on a rejected promise queues nothing and returns a pending promise |
| Chains.ValueNotPassedOn | headers/promise.h:370-372 | an instance: `_catch` on a resolved promise queues nothing and returns a pending promise |
| Chains.SelfAdoptionInstance | headers/promise.h:181-188 | an instance: a promise that is told to follow itself waits for itself; no error, nothing queued |
| Chains.AdoptionLocksIff | headers/promise.h:181-188 | `resolve(promise)` fixes the outcome against later calls if and only if one of the two is settled already |
| TaskLoops.OneshotsFifo | src/taskloop.cpp:36-37 | a pass runs the oneshots in queue order, each once, those pushed meanwhile at their place, to the end unless one throws |
| Passes.OneshotsAreEvents | src/taskloop.cpp:36-37 | the state that the oneshot loop leaves is the one reached by running the code of each oneshot that ran, in order, each in the environment it captured |
| Passes.PermanentsAreEvents | src/taskloop.cpp:34-35 | the same for the permanent loop, `promise_task` being a drain; the tasks that ran are those of the final queue, to its end or up to the one that throws |
| Passes.PassIsRun | src/taskloop.cpp:33-39 | so a pass is a run: permanent tasks in order, then oneshots in order, and after a normal end the oneshot queue is cleared and nothing else is changed |
| Passes.PassExtendsRun | src/taskloop.cpp:33-39 | what a pass makes of a state that a run has reached, up to that clearing, is reached by a longer run: all guarantees over runs hold of it |
| Passes.PushedCaptures | src/taskloop.cpp:23-30 | a task that code pushes, of either kind, carries the handles of that code, each at its place, followed only by those of promises made since |
| TaskLoops.OneshotsRunOnce | src/taskloop.cpp:33-39 | after a pass without exceptions the queue is empty and everything that was in it has run, old before new |
| TaskLoops.OneshotsThrowIff | src/taskloop.cpp:36-37 | the oneshot loop ends by an exception if and only if a oneshot in the queue, or one that these push, and so on, comes to a throw: decided by their code and data alone |
| TaskLoops.PermanentsThrowIff | src/taskloop.cpp:34-35 | the permanent loop, from where it runs user tasks only, ends by an exception if and only if a task in the queue, or one that these push, and so on, comes to a throw: decided by their code and data alone; and the oneshots that it leaves are those that were there and those that these tasks push |
| TaskLoops.PermanentsThrewIff | src/taskloop.cpp:34-35 | with any tasks: it has ended so if and only if a task of the queue that it leaves comes to a throw |
| TaskLoops.OneshotsLeftIff | src/taskloop.cpp:33-39 | with `promise_task` first and user tasks behind it: from the two queues as the drain leaves them, a pass ends by an exception if and only if a permanent task, or a oneshot, those that the permanent tasks push included, or one that any of these push, comes to a throw; and it leaves oneshots if and only if it does, unless a permanent task does while there is no oneshot |
| TaskLoops.QuietPassIff | src/taskloop.cpp:33-39 | with only `promise_task` and nothing to call back, this can be told from the oneshot queue before the pass |
| TaskLoops.RunsAgain | src/taskloop.cpp:33-39 | after a pass in which a oneshot threw, the next pass that gets to the oneshots starts with the same one |
| TaskLoops.RunsAgainInstance | src/taskloop.cpp:33-39 | an instance: two oneshots, the second throwing, are run by every pass |
| TaskLoops.RunOnceInv | src/taskloop.cpp:33-39 | a pass keeps the engine's invariant, settled outcomes and the log |
| TaskLoops.RunOnceSolving | src/taskloop.cpp:33-39 | a pass, whatever its tasks do and however it ends, keeps the solving invariant |
| TaskLoops.OutcomesInPass | src/promise.cpp:9-22 | once `promise_task` has run in a pass, every promise has come out as its code does, and each lawful one has the fate of its equation |
| TaskLoops.HandlersRunInNextPass | src/promise.cpp:9-22 | bounded latency: once `promise_task` has run in a pass, the handlers of all promises that exist have run exactly once if their promise settled their way at whatever earlier time, and not at all if not |
| Generators.EnterOk | headers/generator.h:194-221 | switching to a generator puts it on the call stack, linked to its caller, and keeps the stack exact |
| Generators.LeaveOk | headers/generator.h:144-185 | switching back takes it off again |
| Generators.SendIn | headers/generator.h:194-232 | `next`: the call stack is as before, generators on it and finished ones are untouched, and a call that resumes uses up body |
| Generators.ThrowIn | headers/generator.h:236-262 | the same for `_throw` |
| GeneratorLaws.FollowsTree | headers/generator.h:134-262 | driven by any `next` and `_throw`, any generator - yielding, delegating, resuming others, to any depth - gives the answers of the conversation with its tree, and all generators stand afterwards where their trees stand |
| GeneratorLaws.BetweenCalls | headers/generator.h:134-185 | between calls nothing is running, the stack is allocated iff the generator waits at a yield or delegates, and an exception is kept iff its body ended by it |
| GeneratorLaws.ReplyAlone | headers/generator.h:149-232 | a body that resumes no other generator answers by walking its own tree, in any company, and changes nothing else |
| GeneratorLaws.DriveAlone | headers/generator.h:149-262 | driven by any `next` and `_throw`, a generator whose body resumes no other gives the answers of its own tree, node by node, and every other generator is left as it was |
| GeneratorValues.EchoAnswers | headers/generator.h:149-163 | a waiting generator that yields what it received answers every value with that value, for all inputs, until it is done; then it repeats the value it returned |
| GeneratorValues.EchoFromStart | headers/generator.h:194-221 | the same from the start: the value that starts a body is received by nobody |
| GeneratorValues.SentReceived | headers/generator.h:162-163 | whatever the body is, what it yields, returns or raises next is computed from the value sent in, behind all values it had received |
| GeneratorValues.ThrownReceived | headers/generator.h:236-262 | the same for an exception, where the body catches it, whether it waits or delegates; a body that raises what it caught gives it back |
| GeneratorValues.ThrownBack | headers/generator.h:236-262 | `_throw` on a generator that has not started or is done gives the exception back and changes nothing |
| GeneratorValues.InnerAnswerReceived | headers/generator.h:194-262 | what an inner generator answers to a body that resumes it - a value to `next`, or an exception where it is caught - reaches that body, behind what it had received |
| GeneratorValues.InnerErrorReceived | headers/generator.h:79-82 | an exception of the inner generator of a `yield_from` reaches the outer body where it catches, behind those it had received |
| GeneratorLaws.DoneForever | headers/generator.h:222-224 | a finished generator never changes, and `next` returns its last value without running code |
| GeneratorLaws.ReentryRefused | headers/generator.h:225-230 | the running generators are the call stack; `next` or `_throw` on one of them raises ALREADY_RUNNING and changes nothing |
| GeneratorLaws.DelegateSend | headers/generator.h:79-82 | what a delegating generator does with a value, in full: passes it on, passes the answer on, lets an exception arrive in the outer body, and goes on by itself once the inner one is over; also for the value with which it enters `yield_from` |
| GeneratorLaws.DelegateThrow | headers/generator.h:79-82 | an exception thrown in while delegating goes to the outer body only: where that catches it and resumes no other, it answers by its own tree, and the inner generator, like all others, is left as it was |
| GeneratorLaws.Graft | headers/generator.h:79-82 | `yield_from` emits the remaining yields of the inner generator, of whatever kind, and then its return value, each sent value being the inner input, from wherever the outer one reaches it; the others stand as if the inner one had been driven by itself |
| GeneratorLaws.AloneAnywhere | headers/generator.h:79-82 | an inner generator that keeps to itself gives the answers that it gives when driven from outside |
| GeneratorCrashes.CrashesIff | headers/generator.h:79-82 | for bodies that yield and delegate: `next` never crashes, and `_throw` does if and only if the body, where it catches the exception, comes to `yield_from` of an unfinished generator before it yields or ends |
| GeneratorCrashes.TurnCrashesIff | headers/generator.h:79-82 | one turn of `yield_from` crashes if and only if the inner generator is not done and no value was sent in |
| GeneratorCrashes.RunCrashesIff | headers/generator.h:79-82 | any rest of a body, in a program whose bodies yield and delegate: it crashes if and only if no value was sent in and it comes to `yield_from` of an unfinished generator before it yields or ends |
| GeneratorCrashes.CrashInstance | headers/generator.h:79-82 | an instance: catch an exception at the first yield, then delegate |
| GeneratorCrashes.FedNeverCrashes | headers/generator.h:79-82 | for any bodies: if none delegates after a caught exception without a yield between, no call ever crashes |
| GeneratorObjects.Program.Next | headers/generator.h:194-232 | the objects after `next` and its result are those of the state machine |
| GeneratorObjects.Program.Throw | headers/generator.h:236-262 | the same for `_throw` |
| GeneratorObjects.Program.TryYield | headers/generator.h:149-160 | a yield on a generator that is not running raises NOT_RUNNING and changes nothing; on a running one it is the next row |
| GeneratorObjects.Program.YieldImpl | headers/generator.h:157-160 | the value is shown, the status is SUSPENDED, the place is kept, and nothing else changes |
| GeneratorObjects.Program.End | headers/generator.h:134-146 | the return value or the exception is kept, the status is DONE and the stack released |
| GeneratorObjects.Program.Body | headers/generator.h:134-169 | a body up to its next yield or its end, with the generators it resumes |
| GeneratorObjects.Program.DelegateTo | headers/generator.h:79-82 | `yield_from`: looks at the inner status before each round, then reads the value to pass on |
| Sockets.Conservation | src/socket.cpp:173-217 | if no answer of the kernel is a hard error, wire followed by buffer is the data of all `write` calls in their order, and the counter is the wire's length |
| Sockets.ConservedIff | src/socket.cpp:173-217 | in general that holds if and only if no hard error came after a partial send; the wire is longer by exactly the bytes sent twice |
| Sockets.WireIsFront | src/socket.cpp:185-192 | failure or not, what an event puts on the wire is the front of what there is to send, as long as the counter moves by and the bytes that will be sent again |
| Sockets.FailureResends | src/socket.cpp:185-192 | an instance in which a byte is sent twice |
| Sockets.RunInv | src/socket.cpp:200-216 | in every run, failures included, the buffer is the accepted data from the counter on, targets never decrease or pass the accepted bytes, and the queue holds the latest promises in order, all earlier ones being reached |
| Sockets.PromiseSound | src/Linux/socket1.cpp:133-147 | a write promise is resolved only when the counter has reached its target, and without failures all bytes up to and including its write are on the wire |
| Sockets.TargetIsAccepted | src/socket.cpp:205-216 | the target of a write promise is the number of bytes of all `write` calls up to and including its own; a promise resolved at once leaves nothing unsent; an exception leaves the queue as it was |
| SocketAnswers.WriteAnswerIff | src/socket.cpp:173-217 | told from the kernel's answers: `write` throws if and only if one of them is a hard error while something is left, or the first one is and there is nothing to write; it is resolved if and only if the answers take all; otherwise there is a promise to wait for |
| SocketAnswers.WriteAnswerByBuffer | src/socket.cpp:173-217 | without hard errors it never throws, and is resolved if and only if the first call was answered and the buffer is empty afterwards |
| SocketAnswers.WritableThrowsIff | src/Linux/socket1.cpp:111-131 | the writable event throws if and only if the socket is not CONNECTING and the kernel answers with a hard error while something is left |
| Sockets.FlushComplete | src/Linux/socket1.cpp:111-148 | after a flush a promise is resolved if and only if its target is reached, and none is left if the buffer is empty |
| Sockets.ResolvedIff | src/Linux/socket1.cpp:111-148 | a write promise is resolved if and only if its target was reached at the end of some writable event that flushed after it was given out |
| Sockets.WriteResolvesNone | src/socket.cpp:202-216 | a `write` leaves every waiting promise waiting, reached or not |
| Sockets.ReachedButWaiting | src/socket.cpp:202-209 | an instance: everything is on the wire and a write promise still waits |
| Sockets.ResolvedForever | src/Linux/socket1.cpp:136-147 | targets never change and resolved promises stay resolved |
| Sockets.ConnectWaitsIff | src/Linux/socket1.cpp:64-109 | the promise of `connect` waits if and only if the socket is CONNECTING, or the end of the stream was found while it was |
| Sockets.FailedConnectionWaits | src/Linux/socket1.cpp:92-104 | an instance: a connection that fails leaves it waiting, and `close` does nothing |
| Sockets.EarlyEndWaits | src/Linux/socket1.cpp:64-91 | an instance: the end of the stream and room to write, reported together while CONNECTING, leave the socket HALF_CLOSED and the promise waiting |
| Sockets.LocalCloseHalf | src/socket.cpp:220-242 | a connected socket that is closed on this side stays HALF_CLOSED, unless the end of the stream is found after that |
| SocketAnswers.ConnectAnswerIff | src/socket.cpp:126-170 | exactly when `connect` answers with a promise that waits, an exception, or a resolved promise, and what it does to the socket in each case |
| SocketAnswers.StatusChangesIff | src/socket.cpp:126-242 | for each status, exactly the events that bring a socket into it |
| SocketAnswers.ClosedIff | src/socket.cpp:220-242 | a socket is CLOSED if and only if some event found it HALF_CLOSED and ended the other half - the end of the stream, or `close` of a descriptor it still had - and no end of the stream was reported after that |
| SocketAnswers.CloseThrowsIff | src/socket.cpp:220-242 | `close` throws if and only if the kernel refuses on a CONNECTED or HALF_CLOSED socket that has its descriptor; then nothing changes |
| SocketAnswers.ReadableThrowsIff | src/Linux/socket1.cpp:43-79 | the readable event throws if and only if reading fails, and only the end of the stream changes the socket |
| SocketAnswers.CloseAfterEnd | src/socket.cpp:235-241 | an instance: connected, end of the stream, `close`: CLOSED |
| Sockets.FlushProgress | src/Linux/socket1.cpp:115-131 | a kernel that keeps taking bytes empties the buffer |
| Sockets.FullWriteRounds | src/socket.cpp:181-200 | against a kernel that takes all it is offered, `write` finishes within a given number of calls if and only if that many rounds of 4096 bytes suffice; it makes at least one call |
| Sockets.FullFlushRounds | src/Linux/socket1.cpp:115-131 | the same for the writable event, with rounds of 1024 bytes and no call for an empty buffer |
| SocketObjects.Socket.WriteData | src/socket.cpp:173-217 | `write` on the object is that of the state machine, for every sequence of kernel answers |
| SocketObjects.Socket.Transmit | src/socket.cpp:181-200 | its loop: the bytes taken are those from the front of the buffer, up to completion, blocking or failure |
| SocketObjects.Socket.Flush | src/Linux/socket1.cpp:115-131 | the loop of the writable event |
| SocketObjects.Socket.ResolveWrites | src/Linux/socket1.cpp:136-147 | the promises popped, in order, are the front of the queue whose targets are reached |
| SocketObjects.Socket.OnWritable | src/Linux/socket1.cpp:86-149 | the writable event on the object is that of the state machine: a CONNECTING socket connects and does not flush |
| SocketObjects.Socket.ConnectTo | src/socket.cpp:126-170 | only an IDLE socket connects, at once or by way of CONNECTING with a promise that waits for the connect event; an error leaves it IDLE |
| SocketObjects.Socket.OnReadable | src/Linux/socket1.cpp:43-79 | the end of the stream makes the socket HALF_CLOSED, or CLOSED if it was; an error changes nothing |
| SocketObjects.Socket.CloseSocket | src/socket.cpp:220-242 | `close`: nothing before the connection or after the end, an exception if the kernel refuses, otherwise half of the connection or the rest |

## Left out

- Kernel and platform: `write`, `connect`, `getsockopt` and epoll are parameters that answer as they like; `ucontext` is reduced to status, continuation, in- and out-value, error and an allocation flag; FreeBSD's copy of the flush loop, the reactor and address getters are not modelled.
- Type plumbing: function traits, `boost::any` and exception casts. A `_catch` whose error type does not match throws outside the helper's `try` (headers/promise.h:385) and leaves `promise_task` half done; the model has one error type, so this cannot happen in it.
- Re-entry of `promise_task` or `run_once` from a callback is not modelled.
- User code is finite: scripts and generator bodies have no unbounded loops, so every callback returns.
- The two-argument `then` (headers/promise.h:345-350, 512-516) never returns its promise; the protected `Promise<void>::resolve(Promise<void>)` (headers/promise.h:451-458), which the context class does not offer, is not modelled.
- The promise that `then` on a rejected promise creates and throws away (headers/promise.h:315, 320) is not a cell of its own.
- `EventMixin`, `ServerSocket`, and the data that a socket reads: of the readable event the model has how it ends.
- An event that reports both directions is modelled as its two parts, reading first; where reading throws, the second part is missing.
- Guarantees.SuspendedArmedOnce: holds of code in which each async function awaits through its own `AsyncCtx`. An await through a context copied out of its function is modelled for one call (`Guarantees.AwaitThrough`), not within runs; nor is one through the context of an outer function that is RUNNING but not innermost, which would switch stacks under the inner one.
- Runtime.Thread.AwaitImpl: for the same reason without the NOT_RUNNING that the yield of such an await raises.
- Reclamation of memory, thread-locals, and wrap-around of `size_t` counters.
- Guarantees.OutcomeIsCourse: says nothing of a root on which several calls were made; the order of events decides which of them wins. Where code makes several roots, the theorem names some roots, made later than the promise and in order, as those it made.
- Guarantees.OutcomesAreLeastFixedPoint: where some code makes roots, its promise has no equation in the promises it was given; such promises are covered by `Guarantees.OutcomeIsCourse`.
- TaskLoops.OneshotsLeftIff: for `promise_task` as the first permanent task, as `promise_init` leaves it in a new loop; with user tasks before it, what they do decides what there is to drain.
- GeneratorCrashes.TurnCrashesIff: for an inner generator and a rest of the body that resume no others; where they delegate, `GeneratorCrashes.RunCrashesIff`, and where they resume others, `GeneratorCrashes.FedNeverCrashes`.
- GeneratorObjects.Program.TryYield: without a yield through the context of a generator that is running but not innermost, which would leave the inner ones without a context to return to.
- Runtime.Thread.ResumeGenerator: the generator under an async function is kept as a value in the thread's state and not as an object; PENDING is folded into its start. Generators as objects are in `GeneratorObjects`.
