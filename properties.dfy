/**
 * What src/index.js promises about its promises, proved of `Semantics`:
 * the one-shot guard, executor exceptions, `then`, dispatch of one callback,
 * draining, and the rules of the resolution procedure.
 */
module Properties {
  import opened Values
  import opened Semantics

  // ---------------------------------------------------------------------------
  // The one-shot guard of the constructor (src/index.js:24-42)
  // ---------------------------------------------------------------------------

  /** Of two calls on one `resolve`/`reject` pair, the second has no effect. */
  lemma SecondCallIsNoOp(w: World, p: PromiseId, first: ResolverCall, second: ResolverCall)
    requires WF(w) && p in w.heap
    ensures ApplyCall(ApplyCall(w, p, first), p, second) == ApplyCall(w, p, first)
  {
  }

  /** After the first of `n` calls, the calls that follow change nothing. */
  lemma {:induction false} RunCallsFirstWins(w: World, p: PromiseId, e: Executor, n: nat)
    requires WF(w) && p in w.heap && 1 <= n <= |e.calls|
    ensures RunCalls(w, p, e, n) == ApplyCall(w, p, e.calls[0])
    decreases n
  {
    if n > 1 {
      RunCallsFirstWins(w, p, e, n - 1);
    }
  }

  /**
   * An executor that calls its pair at least once is settled by its first
   * call alone: later calls, and a throw after them, are ignored.
   */
  lemma FirstCallWins(w: World, p: PromiseId, e: Executor)
    requires WF(w) && p in w.heap && |e.calls| > 0
    ensures RunExecutor(w, p, e) == ApplyCall(w, p, e.calls[0])
  {
    RunCallsFirstWins(w, p, e, |e.calls|);
  }

  /** An executor that throws before calling its pair rejects the promise with what it threw. */
  lemma ThrowBeforeSettlingRejects(w: World, e: Executor)
    requires WF(w) && e.calls == [] && e.ending.Throws?
    ensures var (r, p) := NewPromise(w, e);
      r.heap[p].state == Rejected && r.heap[p].result == e.ending.error
  {
    var (w1, p) := Alloc(w);
    assert RunCalls(w1, p, e, 0) == w1;
    assert RunExecutor(w1, p, e) == Reject(w1, p, e.ending.error);
  }

  /** A throw after a call on the pair leaves the settlement as the call made it. */
  lemma ThrowAfterSettlingIgnored(w: World, p: PromiseId, calls: seq<ResolverCall>, err: Value)
    requires WF(w) && p in w.heap && |calls| > 0
    ensures RunExecutor(w, p, Executor(calls, Throws(err))) == RunExecutor(w, p, Executor(calls, Returns))
  {
    FirstCallWins(w, p, Executor(calls, Throws(err)));
    FirstCallWins(w, p, Executor(calls, Returns));
  }

  // ---------------------------------------------------------------------------
  // The resolution procedure (src/index.js:108-141)
  // ---------------------------------------------------------------------------

  /**
   * The rules that settle the promise at once: itself gives a TypeError
   * rejection, a `then` getter that throws gives a rejection with the error,
   * and a value that is neither a promise nor a thenable with a callable
   * `then` fulfils with the value as it is.
   */
  lemma ResolveSettlesAtOnce(w: World, p: PromiseId, v: Value)
    requires WF(w) && p in w.heap && w.heap[p].state == Pending && !w.heap[p].ignore
    ensures var r := Resolve(w, p, v);
      && (v == PromiseRef(p) ==> r.heap[p].state == Rejected && r.heap[p].result == SelfResolutionError)
      && (v.Thenable? && v.prop.ThrowsOnRead? ==> r.heap[p].state == Rejected && r.heap[p].result == v.prop.error)
      && (!v.PromiseRef? && !(v.Thenable? && !v.prop.NotCallable?) ==>
            r.heap[p].state == Fulfilled && r.heap[p].result == v)
  {
  }

  /** For a value that is neither a promise nor a thenable, `resolve` is a guarded fulfilment. */
  lemma ResolvePlainFulfils(w: World, p: PromiseId, v: Value)
    requires WF(w) && p in w.heap && !w.heap[p].ignore && Classify(p, v).FulfilWith?
    ensures Resolve(w, p, v) == Transition(CloseGuard(w, p), p, Fulfilled, v)
  {
  }

  /**
   * Resolving with another promise settles nothing yet: it subscribes the
   * two transition closures of the resolved promise to the other one, as
   * `then` does.
   */
  lemma AdoptionSubscribes(w: World, p: PromiseId, q: PromiseId)
    requires WF(w) && p in w.heap && q in w.heap && p != q
    ensures var r := ResolvePromise(w, p, PromiseRef(q));
      var d := w.nextId;
      var cb := Callback(TransitionTo(p, Fulfilled), TransitionTo(p, Rejected), d);
      && r.heap[p] == w.heap[p]
      && (w.heap[q].state == Pending ==>
            r.heap[q].callbacks == w.heap[q].callbacks + [cb] && r.queue == w.queue)
      && (w.heap[q].state != Pending ==>
            r.heap[q] == w.heap[q] && r.queue == w.queue + [Dispatch(cb, q)])
  {
    assert w.nextId == Then(w, q, TransitionTo(p, Fulfilled), TransitionTo(p, Rejected)).1 by {
      assert w.nextId !in w.heap;
    }
  }

  /**
   * When the adopted promise settles, dispatching the subscription gives the
   * adopting promise the same state and the same result.
   */
  lemma AdoptedSettlementMirrors(w: World, p: PromiseId, d: PromiseId, st: SettledState, res: Value)
    requires WF(w) && p in w.heap && w.heap[p].state == Pending
    ensures var r := HandleCallback(w, Callback(TransitionTo(p, Fulfilled), TransitionTo(p, Rejected), d), st, res);
      r.heap[p].state == st && r.heap[p].result == res
  {
  }

  /** Likewise for a thenable: its `then` runs once, on a fresh promise, and only its first call counts. */
  lemma AssimilationFirstCallWins(w: World, p: PromiseId, body: Executor)
    requires WF(w) && |body.calls| > 0
    ensures ResolvePromise(w, p, Thenable(Callable(body)))
         == ResolvePromise(w, p, Thenable(Callable(Executor([body.calls[0]], Returns))))
  {
    var (w1, t) := Alloc(w);
    FirstCallWins(w1, t, body);
    FirstCallWins(w1, t, Executor([body.calls[0]], Returns));
  }

  /**
   * Resolving with an already settled promise: the one queued task, once run,
   * gives the resolved promise the other's state and result.
   */
  lemma AdoptionOfSettledPromise(w: World, p: PromiseId, q: PromiseId)
    requires WF(w) && |w.queue| == 0 && p != q
    requires p in w.heap && w.heap[p].state == Pending && q in w.heap && w.heap[q].state != Pending
    ensures var r := Step(ResolvePromise(w, p, PromiseRef(q)));
      r.heap[p].state == w.heap[q].state && r.heap[p].result == w.heap[q].result
  {
    var w1 := ResolvePromise(w, p, PromiseRef(q));
    AdoptionSubscribes(w, p, q);
    var cb := Callback(TransitionTo(p, Fulfilled), TransitionTo(p, Rejected), w.nextId);
    assert w1.queue == [Dispatch(cb, q)];
    DispatchRunsOne(w1);
    AdoptedSettlementMirrors(w1.(queue := []), p, w.nextId, w.heap[q].state, w.heap[q].result);
  }

  // ---------------------------------------------------------------------------
  // Dispatch of one callback (src/index.js:94-106)
  // ---------------------------------------------------------------------------

  /** A non-function `onFulfilled` passes the value through, through resolution. */
  lemma FulfilledPassThrough(w: World, cb: Callback, res: Value)
    requires WF(w) && cb.onFulfilled.NotFunction?
    ensures HandleCallback(w, cb, Fulfilled, res) == Resolve(w.(trace := w.trace + [cb]), cb.target, res)
  {
  }

  /** A non-function `onRejected` passes the reason through unchanged. */
  lemma RejectedPassThrough(w: World, cb: Callback, res: Value)
    requires WF(w) && cb.onRejected.NotFunction?
    requires cb.target in w.heap && w.heap[cb.target].state == Pending && !w.heap[cb.target].ignore
    ensures var r := HandleCallback(w, cb, Rejected, res);
      r.heap[cb.target].state == Rejected && r.heap[cb.target].result == res
  {
  }

  /** A handler that throws rejects the downstream promise with what it threw. */
  lemma HandlerThrowRejects(w: World, cb: Callback, st: SettledState, res: Value)
    requires WF(w) && HandlerFor(cb, st).UserFn? && HandlerFor(cb, st).call(res).Throw?
    requires cb.target in w.heap && w.heap[cb.target].state == Pending && !w.heap[cb.target].ignore
    ensures var r := HandleCallback(w, cb, st, res);
      r.heap[cb.target].state == Rejected && r.heap[cb.target].result == HandlerFor(cb, st).call(res).error
  {
  }

  /**
   * A value returned by either handler resolves the downstream promise; in
   * particular an `onRejected` that returns a plain value fulfils it
   * (Promises/A+ section 2.2.7.1).
   */
  lemma HandlerReturnResolves(w: World, cb: Callback, st: SettledState, res: Value)
    requires WF(w) && HandlerFor(cb, st).UserFn? && HandlerFor(cb, st).call(res).Return?
    ensures var x := HandlerFor(cb, st).call(res).value;
      HandleCallback(w, cb, st, res) == Resolve(w.(trace := w.trace + [cb]), cb.target, x)
  {
  }

  /**
   * An `onRejected` that returns a value that is neither a promise nor a
   * thenable fulfils the downstream promise with it: the chain recovers.
   */
  lemma RejectionHandlerRecovers(w: World, cb: Callback, res: Value)
    requires WF(w) && cb.onRejected.UserFn? && cb.onRejected.call(res).Return?
    requires Classify(cb.target, cb.onRejected.call(res).value).FulfilWith?
    requires cb.target in w.heap && w.heap[cb.target].state == Pending && !w.heap[cb.target].ignore
    ensures var r := HandleCallback(w, cb, Rejected, res);
      r.heap[cb.target].state == Fulfilled && r.heap[cb.target].result == cb.onRejected.call(res).value
  {
    HandlerReturnResolves(w, cb, Rejected, res);
    ResolveSettlesAtOnce(w.(trace := w.trace + [cb]), cb.target, cb.onRejected.call(res).value);
  }

  /**
   * One dispatch makes exactly one call on the downstream pair: afterwards its
   * guard is closed, so any further call on that pair changes nothing.
   */
  lemma DispatchSettlesOnce(w: World, cb: Callback, st: SettledState, res: Value, later: ResolverCall)
    requires WF(w) && cb.target in w.heap
    ensures var r := HandleCallback(w, cb, st, res);
      r.heap[cb.target].ignore && ApplyCall(r, cb.target, later) == r
  {
  }

  // ---------------------------------------------------------------------------
  // Running the timer queue (src/index.js:70-72, 89, 143-147)
  // ---------------------------------------------------------------------------

  /**
   * A drain task dispatches every callback its promise had, once each, first
   * registered first, with the promise's state and result, and leaves the
   * callback list empty; the promise keeps its settlement.
   */
  lemma DrainDispatchesInOrder(w: World)
    requires WF(w) && |w.queue| > 0 && w.queue[0].Drain?
    ensures var p := w.queue[0].promise;
      var r := Step(w);
      && r.trace == w.trace + w.heap[p].callbacks
      && r.heap[p].callbacks == []
      && r.heap[p].state == w.heap[p].state && r.heap[p].result == w.heap[p].result
      && p in w.heap
      && r == HandleAll(ClearCallbacks(Pop(w), p), w.heap[p].callbacks, w.heap[p].state, w.heap[p].result)
  {
    assert TaskValid(w.heap, w.queue[0]);
  }

  /** A dispatch task calls `handleCallback` exactly once, with the promise's settlement. */
  lemma DispatchRunsOne(w: World)
    requires WF(w) && |w.queue| > 0 && w.queue[0].Dispatch?
    ensures var cb := w.queue[0].callback;
      var q := w.queue[0].promise;
      Step(w) == HandleCallback(w.(queue := w.queue[1..]), cb, w.heap[q].state, w.heap[q].result)
      && Step(w).trace == w.trace + [cb]
  {
    assert TaskValid(w.heap, w.queue[0]);
  }

  /**
   * What running a task keeps, although it takes the task off the queue and
   * a drain task empties a callback list: every promise stays allocated, a
   * closed guard stays closed, and a settled promise keeps its state and result.
   */
  lemma StepKeepsSettlements(w: World, p: PromiseId)
    requires WF(w) && p in w.heap
    ensures var r := Step(w);
      && p in r.heap
      && (w.heap[p].ignore ==> r.heap[p].ignore)
      && (w.heap[p].state != Pending ==> r.heap[p].state == w.heap[p].state && r.heap[p].result == w.heap[p].result)
  {
    if |w.queue| > 0 {
      var w1 := Pop(w);
      match w.queue[0]
      case Drain(q, st, res) =>
        if q in w1.heap {
          var w2 := ClearCallbacks(w1, q);
          var r := HandleAll(w2, w1.heap[q].callbacks, st, res);
          assert p in w2.heap && RecGrows(w2.heap[p], r.heap[p]);
        }
      case Dispatch(cb, q) =>
    }
  }

  /** First call wins across timer tasks: a closed guard still makes any call a no-op after a step. */
  lemma GuardStaysClosedAcrossStep(w: World, p: PromiseId, c: ResolverCall)
    requires WF(w) && p in w.heap && w.heap[p].ignore
    ensures ApplyCall(Step(w), p, c) == Step(w)
  {
    StepKeepsSettlements(w, p);
  }

  /** Operations other than running a task call no handler. */
  lemma NoHandlerRunsSynchronously(w: World, q: PromiseId, onF: Handler, onR: Handler, e: Executor, p: PromiseId, c: ResolverCall)
    requires WF(w)
    ensures Then(w, q, onF, onR).0.trace == w.trace
    ensures NewPromise(w, e).0.trace == w.trace
    ensures ApplyCall(w, p, c).trace == w.trace
  {
  }
}
