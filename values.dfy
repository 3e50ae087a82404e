/**
 * The entities of the mini Promises/A+ implementation in src/index.js:
 * promise states, the JavaScript values the resolution procedure tells apart,
 * scripted user code (executors and handlers), callback records, promise
 * records, scheduler tasks, and the whole runtime state as one value.
 */
module Values {

  /** A promise is identified by the address it is allocated at. */
  type PromiseId = nat

  /** The three states of src/index.js:12-14. */
  datatype State = Pending | Fulfilled | Rejected

  /** The states `transition` is ever called with. */
  type SettledState = s: State | s != Pending witness Fulfilled

  /**
   * A JavaScript value, as far as the resolution procedure can tell values
   * apart.  `isPromise` and `isThenable` are constructor tests on this type.
   */
  datatype Value =
    | Undefined
    | Null
    | Prim(n: int)                   // any other value that is neither a promise nor a thenable
    | SelfResolutionError            // the TypeError built when a promise is resolved with itself
    | PromiseRef(id: PromiseId)      // a promise of this runtime
    | Thenable(prop: ThenProp)       // a foreign object or function that has a `then` property

  /** What reading the `then` property of a thenable gives. */
  datatype ThenProp =
    | ThrowsOnRead(error: Value)     // the property getter throws
    | NotCallable                    // the property is not a function
    | Callable(body: Executor)       // the property is a function, run as an executor

  /**
   * User code handed a `resolve`/`reject` pair (the executor of the
   * constructor, or a foreign `then`): the calls it makes on the pair while it
   * runs, in order, and whether it then returns or throws.
   */
  datatype Executor = Executor(calls: seq<ResolverCall>, ending: Ending)

  datatype ResolverCall = CallResolve(value: Value) | CallReject(reason: Value)

  datatype Ending = Returns | Throws(error: Value)

  /** What a call of a handler does: return a value or throw one. */
  datatype Outcome = Return(value: Value) | Throw(error: Value)

  /**
   * An `onFulfilled` or `onRejected` argument of `then`: not a function, a
   * user function, or one of the two closures `value => transition(this,
   * FULFILLED, value)` and `reason => transition(this, REJECTED, reason)` of a
   * promise that adopts another promise or a thenable.
   */
  datatype Handler =
    | NotFunction
    | UserFn(call: Value -> Outcome)
    | TransitionTo(target: PromiseId, to: SettledState)

  /**
   * One subscription: the two handlers and the promise returned by `then`,
   * whose guarded `resolve`/`reject` pair the record holds.
   */
  datatype Callback = Callback(onFulfilled: Handler, onRejected: Handler, target: PromiseId)

  /**
   * The fields of one promise, and the one-shot `ignore` flag its
   * constructor's `resolve`/`reject` closures share.
   */
  datatype Rec = Rec(state: State, result: Value, callbacks: seq<Callback>, ignore: bool)

  /** A function handed to `setTimeout(fn, 0)`. */
  datatype Task =
    | Drain(promise: PromiseId, state: SettledState, result: Value)  // handleCallbacks(promise.callbacks, state, result)
    | Dispatch(callback: Callback, promise: PromiseId)               // handleCallback(callback, this.state, this.result)

  /**
   * The whole runtime: every allocated promise, the FIFO timer queue, the
   * next free address, and the callbacks `handleCallback` has been called
   * with so far, in order (an observation only, for stating when handlers run).
   */
  datatype World = World(heap: map<PromiseId, Rec>, queue: seq<Task>, nextId: PromiseId, trace: seq<Callback>)

  /** The runtime before any promise exists. */
  const Empty := World(map[], [], 0, [])

  /** A fresh promise: src/index.js:17-19 and the `ignore` flag of line 25. */
  const Fresh := Rec(Pending, Null, [], false)
}
