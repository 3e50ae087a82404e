# mini-promise in Dafny

A model of the Promises/A+ implementation in `src/index.js` of mini-promise,
with proofs about it. The file has four parts:

- the `Promise` constructor, with its one-shot `resolve`/`reject` pair and
  the `try`/`catch` around the executor;
- `transition`, the only place where a promise changes state;
- `then` and the dispatch of callbacks (`handleCallback`, `handleCallbacks`);
- `resolvePromise`, the Promise Resolution Procedure: self-resolution,
  adoption of another promise, assimilation of a thenable, plain fulfilment.

The model is written in three layers:

- `Values` (values.dfy): the entities. These are promise states, the
  JavaScript values the resolution procedure tells apart, and scripted user
  code. An `Executor` is the list of calls it makes on its `resolve`/`reject`
  pair and whether it then returns or throws. A `Handler` is not a function,
  a user function `Value -> Outcome`, or one of the two `transition`
  closures of lines 21-22. The module also has callback records, promise
  records, timer tasks and the whole runtime state `World`.
- `Semantics` (semantics.dfy): each operation as a function from the state
  before it to the state after it. Every one of them, `Step` included,
  preserves the well-formedness invariant `WF`:
  - addresses are below `nextId`;
  - a queued drain task describes its promise's current settlement;
  - a dispatch task refers to a settled promise.

  Every synchronous operation (all but `Step`) also satisfies `Grows`:
  callbacks are only appended, a guard once closed stays closed, a settled
  promise keeps its state, result and callbacks, and the timer queue only
  grows at its end. `Step` takes a task off the queue, and a drain task
  empties a callback list, so `Step` does not satisfy `Grows`. What it does
  keep is proved in `Properties.StepKeepsSettlements`: closed guards stay
  closed, and settled promises keep their state and result.
- `PromiseRuntime.Runtime` (runtime.dfy): the runtime as mutable state.
  Promise records are updated in place, the `setTimeout` queue is a FIFO
  field, and `then` pushes onto a record's callbacks. `handleCallbacks` is a
  `while` loop that drains its list with `shift()`. Each method is proved
  to compute the `Semantics` function of the same name, except
  `Runtime.HandleCallbacks`, which computes `Semantics.HandleAll`.

`Properties` (properties.dfy) proves what the source promises: first call
wins, exceptions become rejections, the rules of the resolution procedure,
the Promises/A+ 2.2.7 dispatch rules, FIFO draining, and that handlers never run
synchronously. `Scenarios` (scenarios.dfy) proves whole runs, from creating
promises to running the timer queue. `Findings` (findings.dfy) models five
lines of the source as written.

Where the source differs from what its own comments describe, the
`Semantics` module models the intended behaviour. Each of the five lines is
also modelled as written, in `Findings`:

- src/index.js:17 initialises `this.status`, but lines 64 and 86 read
  `this.state`. The model has a single `state` field.
- src/index.js:41 calls `onRejected(result)` with an identifier that is not
  in scope. The model rejects with the `reason` argument.
- src/index.js:71 builds an arrow function inside the timer task and never
  calls it. In the model the drain task runs `handleCallbacks`.
- src/index.js:101 passes the return value of `onRejected` to `reject`.
  Section 2.2.7.1 of Promises/A+ says that value goes through the
  resolution procedure, and the model does that.
- src/index.js:126 calls `promise.then` (the promise being resolved). The
  model adopts `result`, the promise it was resolved with.

## Model

| member | source | states |
|---|---|---|
| Semantics.Transition | src/index.js:63-73 | a pending promise takes the new state and result, keeps its callbacks and guard, other promises are unchanged, and exactly one drain task is appended to the queue; a promise that is not pending is left as it is and nothing is queued |
| Semantics.Alloc | src/index.js:17-25 | a fresh address that was not in use, holding a pending promise with a null result, no callbacks and an open guard; the queue is unchanged |
| Semantics.Classify | src/index.js:119-140 | the rule of the resolution procedure that applies: self-resolution exactly for the promise itself, adoption exactly for another promise, assimilation exactly for a thenable with a callable `then`, rejection exactly when reading `then` throws, fulfilment otherwise |
| Semantics.ResolvePromise | src/index.js:119-141 | the resolution procedure keeps the runtime well-formed, only lets it grow, and runs no handler |
| Semantics.CloseGuard | src/index.js:28-30 | closing the one-shot guard changes only that promise's `ignore` flag |
| Semantics.Resolve | src/index.js:27-34 | after `resolve` the guard is closed; with the guard already closed the call changes nothing |
| Semantics.Reject | src/index.js:36-42 | with the guard open, a pending promise is rejected with the given reason; with the guard closed nothing changes; afterwards the guard is closed |
| Semantics.ApplyCall | src/index.js:27-42 | a call on the resolver pair closes the guard, and a call with the guard closed is a no-op |
| Semantics.RunCalls | src/index.js:44-45 | after at least one call of the executor on its pair, the guard is closed |
| Semantics.RunExecutor | src/index.js:44-48 | running the executor and catching its exception keeps the runtime well-formed and runs no handler |
| Semantics.NewPromise | src/index.js:16-49 | the constructor returns a promise at an address that was not in use before, and that promise is in the heap afterwards |
| Semantics.Then | src/index.js:82-92 | `then` returns a fresh pending promise at the next address; on a pending promise it appends one callback record and queues nothing; on a settled promise it leaves the record unchanged and queues one dispatch task; no other promise changes and no handler runs |
| Semantics.Reaction | src/index.js:97-105 | the one call made on the downstream pair: a non-function `onFulfilled` resolves with the value, a non-function `onRejected` rejects with the reason, a handler's return value is resolved, and a handler's exception is rejected |
| Semantics.HandlerEffect | src/index.js:21-22 | only a transition closure has a side effect |
| Semantics.HandleCallback | src/index.js:94-106 | each dispatch records exactly that one callback and keeps the runtime well-formed |
| Semantics.HandleAll | src/index.js:143-147 | the callbacks are dispatched exactly in list order, each once |
| Semantics.Step | src/index.js:70-72 | running the oldest timer task keeps the runtime well-formed |
| PromiseRuntime.Runtime.Transition | src/index.js:63-73 | the in-place update of the promise fields and of the timer queue equals `Semantics.Transition` |
| PromiseRuntime.Runtime.Alloc | src/index.js:17-25 | the in-place allocation equals `Semantics.Alloc`, including the address returned |
| PromiseRuntime.Runtime.ResolvePromise | src/index.js:119-141 | the in-place resolution procedure equals `Semantics.ResolvePromise` |
| PromiseRuntime.Runtime.Resolve | src/index.js:27-34 | the guarded `resolve` closure, updating the `ignore` flag in place, equals `Semantics.Resolve` |
| PromiseRuntime.Runtime.Reject | src/index.js:36-42 | the guarded `reject` closure equals `Semantics.Reject` |
| PromiseRuntime.Runtime.ApplyCall | src/index.js:27-42 | one call on the resolver pair equals `Semantics.ApplyCall` |
| PromiseRuntime.Runtime.RunExecutor | src/index.js:44-48 | the loop over the executor's calls, then `reject(error)` on a throw, equals `Semantics.RunExecutor` |
| PromiseRuntime.Runtime.NewPromise | src/index.js:16-49 | the constructor equals `Semantics.NewPromise` and returns its address |
| PromiseRuntime.Runtime.Then | src/index.js:82-92 | pushing onto `this.callbacks`, or queuing the dispatch, equals `Semantics.Then` and returns the new promise |
| PromiseRuntime.Runtime.HandleCallback | src/index.js:94-106 | the dispatch of one callback equals `Semantics.HandleCallback` |
| PromiseRuntime.Runtime.HandleCallbacks | src/index.js:143-147 | the `while`/`shift()` loop equals `Semantics.HandleAll` over the list it was given |
| PromiseRuntime.Runtime.Step | src/index.js:70-72 | running the oldest timer task equals `Semantics.Step`, and it reports whether there was one |
| Properties.SecondCallIsNoOp | src/index.js:25-42 | of two calls on one `resolve`/`reject` pair, the second has no effect |
| Properties.RunCallsFirstWins | src/index.js:27-45 | after the first of several calls on the pair, the calls that follow change nothing |
| Properties.FirstCallWins | src/index.js:44-48 | an executor that calls its pair is settled by its first call alone; later calls and a later throw are ignored |
| Properties.ThrowBeforeSettlingRejects | src/index.js:44-48 | an executor that throws before calling its pair leaves its promise rejected with what it threw |
| Properties.ThrowAfterSettlingIgnored | src/index.js:36-48 | a throw after a call on the pair gives the same runtime as returning normally |
| Properties.ResolveSettlesAtOnce | src/index.js:119-141 | resolving with the promise itself rejects it with the TypeError; a `then` getter that throws rejects it with the error; a value that is neither a promise nor a thenable with a callable `then` fulfils it with that value |
| Properties.ResolvePlainFulfils | src/index.js:27-34 | for a plain value, `resolve` is the guard followed by `transition` to fulfilled |
| Properties.AdoptionSubscribes | src/index.js:125-127 | resolving with another promise settles nothing yet: the promise's two transition closures are subscribed to the other promise, as a callback if it is pending and as a queued dispatch if it is settled |
| Properties.AdoptedSettlementMirrors | src/index.js:94-106 | dispatching an adopting subscription gives the adopting promise the adopted state and result |
| Properties.AssimilationFirstCallWins | src/index.js:129-134 | a thenable's `then` counts only its first call on the pair |
| Properties.AdoptionOfSettledPromise | src/index.js:125-127 | after resolving with an already settled promise, one timer task gives the promise the other's state and result, when nothing else is queued |
| Properties.FulfilledPassThrough | src/index.js:99 | a non-function `onFulfilled` passes the value on to the downstream `resolve` |
| Properties.RejectedPassThrough | src/index.js:101 | a non-function `onRejected` rejects the downstream promise with the same reason |
| Properties.HandlerThrowRejects | src/index.js:97-105 | a handler that throws rejects the downstream promise with what it threw |
| Properties.HandlerReturnResolves | src/index.js:98-102 | a value returned by either handler is passed to the downstream `resolve` |
| Properties.RejectionHandlerRecovers | src/index.js:101 | an `onRejected` that returns a plain value fulfils the downstream promise with it |
| Properties.DispatchSettlesOnce | src/index.js:94-106 | one dispatch closes the downstream guard, so any further call on that pair is a no-op |
| Properties.DrainDispatchesInOrder | src/index.js:143-147 | a drain task equals handling every callback of its promise once, in registration order, with the promise's state and result, on a world with the task popped and the list emptied; the trace gains exactly those callbacks and the settlement is unchanged |
| Properties.DispatchRunsOne | src/index.js:89 | a dispatch task calls `handleCallback` once, with the promise's current state and result |
| Properties.StepKeepsSettlements | src/index.js:63-66 | running a task keeps every promise allocated, never reopens a closed guard, and never changes a settled promise's state or result |
| Properties.GuardStaysClosedAcrossStep | src/index.js:28-30 | a call on a resolver pair whose guard is closed is still a no-op after a timer task has run |
| Properties.NoHandlerRunsSynchronously | src/index.js:86-90 | `then`, the constructor and calls on a resolver pair call no handler |
| Findings.ReactionAsWritten | src/index.js:101 | as written, a value returned by `onRejected` goes to the downstream `reject` |
| Findings.HandleCallbackAsWritten | src/index.js:94-106 | the dispatch as written records the callback and keeps the runtime well-formed |
| Findings.RecoveryLostAsWritten | src/index.js:101 | as written, an `onRejected` that returns a value leaves the downstream promise rejected with that value |
| Findings.ResolvePromiseAsWritten | src/index.js:125-127 | as written, resolution differs from the intended one only for a promise value |
| Findings.AdoptionStuckAsWritten | src/index.js:126 | as written, resolving with a settled promise queues nothing and subscribes the promise to itself, so it stays pending |
| Findings.TransitionAsWritten | src/index.js:63-69 | `transition` as written changes a promise only if its `state` property holds `PENDING` |
| Findings.FreshNeverSettlesAsWritten | src/index.js:17 | as written, a fresh promise has no `state` property, so `transition` never settles it |
| Findings.RejectAsWritten | src/index.js:36-42 | as written, `reject` with an open guard closes the guard and then throws instead of rejecting |
| Findings.RejectionLostAsWritten | src/index.js:41 | as written, an executor that calls `reject(e)` leaves its promise pending with the guard closed, and that promise can never settle |
| Findings.StepAsWritten | src/index.js:70-72 | as written, a drain task only leaves the queue |
| Findings.CallbacksNeverRunAsWritten | src/index.js:71 | as written, a drain task runs no handler and leaves every promise record unchanged |
| Scenarios.SelfSettlementRejects | src/index.js:120-123 | a promise whose executor keeps its `resolve` is rejected with the TypeError when that `resolve` is later called with the promise itself |
| Scenarios.ThenableResolvesScenario | src/index.js:129-134 | resolving with a thenable whose `then` calls `res(x)` fulfils the promise with `x` once two timer tasks have run |
| Scenarios.ThenableThrowsScenario | src/index.js:129-134 | resolving with a thenable whose `then` throws `err` rejects the promise with `err` once two timer tasks have run |
| Scenarios.ErrorCaptureScenario | src/index.js:44-48 | an executor that throws gives a promise rejected with the error |
| Scenarios.ChainedAdoptionScenario | src/index.js:125-127 | a promise resolved with a pending promise is fulfilled with `x` by the drain task that follows the later `resolve(x)` of the other promise |
| Scenarios.AdoptedPromiseSettlesLater | src/index.js:63-73 | when a pending promise with one adopting subscriber is resolved with `x`, its drain task fulfils the adopting promise with `x` |
| Scenarios.FifoScenario | src/index.js:86-87 | two `then` subscriptions on a pending promise run nothing when it settles; its drain task dispatches them in the order they were made |
| Scenarios.TwoTasksSettle | src/index.js:89 | a drain task and then the dispatch of an adopting subscription give the adopting promise the settlement of the promise it subscribed to |

## Left out

- Timing: `setTimeout(fn, 0)` is a FIFO queue of tasks, and `Step` runs the oldest one. Other tasks of the JavaScript event loop, and delays, are not modelled.
- `isFunction`, `isPromise` and `isThenable` are not part of this model: src/index.js calls them but does not define them. A value's constructor (`PromiseRef`, `Thenable`, `Handler.UserFn`) says which kind it is.
- The `this` binding of `then.bind(result)` is not modelled: a thenable's `then` is modelled by the calls it makes on the pair it is given.
- The message text of the TypeError for self-resolution is not modelled. It is the single value `SelfResolutionError`.
- User code is not modelled as arbitrary code. An executor or a foreign `then` is a fixed list of resolver calls followed by a return or a throw. A handler is a total function from a value to a returned or thrown value, with no side effects on the runtime.
- A `PromiseRef` whose address was never allocated cannot arise in JavaScript. For such a value, `then` only allocates the new promise.
- Properties.DrainDispatchesInOrder: the drain task takes a snapshot of the callback list and empties the field before it dispatches. The source empties the list one `shift()` at a time. The two agree because a settled promise never receives new callbacks (`Semantics.Then`, `Semantics.Grows`).
- Values.Value, Values.ThenProp: values are finite trees, so a thenable whose `then` resolves with the thenable itself (`const t = { then: r => r(t) }`) cannot be written down. On such a thenable the source recurses synchronously through lines 133, 45 and 33 until the stack overflows. The model does not capture that overflow: the `decreases v, 0` of `Semantics.ResolvePromise` (and of the functions it calls) holds only because every value is finite.
- Chains of adoption or assimilation that go through the timer queue (promises that adopt each other) are not shown to settle or to stop. Each property is stated for one operation or a fixed number of timer steps.
- The source has no combinators, no cancellation and no reporting of unhandled rejections, so the model has none either.

## Findings

Each row models its one line as written, with the other four lines
corrected. In the unmodified file, line 17 alone stops every promise from
settling: `transition` returns early for every promise (line 64), and `then`
always takes the line-89 branch with an undefined state. Lines 71, 101 and
126 are then never reached, or make no visible difference. So each input
below shows its defect only in a copy of the file where the other defects
are fixed. Line 41 is the exception: its ReferenceError is visible in the
unmodified file too, whenever `reject` is called outside the constructor's
`try` (the second input of its row), because nothing catches it there.

| source | as written | input that shows it | evidently intended | confidence | as-written member | corrected member |
|---|---|---|---|---|---|---|
| src/index.js:17 | the constructor sets `this.status`, so `this.state` is never set and `transition` never sees a pending promise | any `new Promise(f)`, then `resolve(1)` | a single `state` field, initially pending | not executed | Findings.FreshNeverSettlesAsWritten | Semantics.Transition |
| src/index.js:41 | `reject` closes its guard, then throws a ReferenceError for `result`; the constructor's `catch` calls `reject` again, and the closed guard ignores it | `new Promise((_, reject) => reject(e))`; in the unmodified file, `let rej; new Promise((_, r) => { rej = r }); rej(e)` throws the ReferenceError to the caller of `rej` | reject with the `reason` argument | not executed | Findings.RejectionLostAsWritten | Semantics.Reject |
| src/index.js:71 | the timer task builds an arrow function and never calls it, so `handleCallbacks` never runs | `p.then(h)` on a pending `p`, then `resolve(1)` | the task calls `handleCallbacks(promise.callbacks, state, result)` | not executed | Findings.CallbacksNeverRunAsWritten | Properties.DrainDispatchesInOrder |
| src/index.js:101 | the return value of `onRejected` is passed to the downstream `reject` | `p.then(null, () => 1)` on a rejected `p` gives a promise rejected with 1 | resolve with it (Promises/A+ section 2.2.7.1), so the chain recovers | not executed | Findings.RecoveryLostAsWritten | Properties.RejectionHandlerRecovers |
| src/index.js:126 | `promise.then(resolve, reject)` subscribes the promise being resolved to itself | resolving a pending promise with an already fulfilled promise | `result.then(resolve, reject)`: adopt the other promise's settlement | not executed | Findings.AdoptionStuckAsWritten | Properties.AdoptionOfSettledPromise |
