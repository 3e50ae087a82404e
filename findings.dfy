/**
 * Five places where src/index.js does not do what its comments and
 * Promises/A+ ask, each modelled as written, with the input that shows it.
 * The rest of the model uses the corrected definitions of `Semantics`.
 */
module Findings {
  import opened Values
  import opened Semantics

  // ---------------------------------------------------------------------------
  // src/index.js:101 passes the return value of `onRejected` to `reject`
  // ---------------------------------------------------------------------------

  /** The downstream call of `handleCallback` as line 101 writes it. */
  function ReactionAsWritten(cb: Callback, st: SettledState, res: Value): (c: ResolverCall)
    ensures st == Fulfilled || HandlerFor(cb, st).NotFunction? ==> c == Reaction(cb, st, res)
    ensures st == Rejected && !cb.onRejected.NotFunction? ==>
      match Invoke(cb.onRejected, res)
      case Return(x) => c == CallReject(x)
      case Throw(e) => c == CallReject(e)
  {
    if st == Rejected && !cb.onRejected.NotFunction? then
      match Invoke(cb.onRejected, res)
      case Return(x) => CallReject(x)
      case Throw(e) => CallReject(e)
    else
      Reaction(cb, st, res)
  }

  /** `handleCallback` as written. */
  ghost function HandleCallbackAsWritten(w: World, cb: Callback, st: State, res: Value): (r: World)
    requires WF(w)
    ensures WF(r) && Grows(w, r) && r.trace == w.trace + [cb]
  {
    var w0 := w.(trace := w.trace + [cb]);
    if st == Pending then w0
    else
      var w1 := HandlerEffect(w0, HandlerFor(cb, st), res);
      var r := ApplyCall(w1, cb.target, ReactionAsWritten(cb, st, res));
      GrowsTrans(w0, w1, r);
      r
  }

  /**
   * As written, an `onRejected` that recovers by returning a plain value
   * rejects the downstream promise with that value instead of fulfilling it.
   */
  lemma RecoveryLostAsWritten(w: World, cb: Callback, res: Value)
    requires WF(w) && cb.onRejected.UserFn? && cb.onRejected.call(res).Return?
    requires cb.target in w.heap && w.heap[cb.target].state == Pending && !w.heap[cb.target].ignore
    ensures var r := HandleCallbackAsWritten(w, cb, Rejected, res);
      r.heap[cb.target].state == Rejected && r.heap[cb.target].result == cb.onRejected.call(res).value
  {
  }

  // ---------------------------------------------------------------------------
  // src/index.js:126 subscribes to `promise` instead of adopting `result`
  // ---------------------------------------------------------------------------

  /** `resolvePromise` as written: `promise.then(resolve, reject)` for a promise value. */
  ghost function ResolvePromiseAsWritten(w: World, p: PromiseId, v: Value): (r: World)
    requires WF(w)
    ensures WF(r) && Grows(w, r) && r.trace == w.trace
    ensures !Classify(p, v).Adopt? ==> r == ResolvePromise(w, p, v)
  {
    match Classify(p, v)
    case Adopt(_) => Then(w, p, TransitionTo(p, Fulfilled), TransitionTo(p, Rejected)).0
    case _ => ResolvePromise(w, p, v)
  }

  /**
   * As written, resolving a pending promise with an already fulfilled or
   * rejected one queues nothing: the promise waits on itself, so no task can
   * ever settle it.
   */
  lemma AdoptionStuckAsWritten(w: World, p: PromiseId, q: PromiseId)
    requires WF(w) && |w.queue| == 0 && p != q
    requires p in w.heap && w.heap[p].state == Pending && q in w.heap && w.heap[q].state != Pending
    ensures var r := ResolvePromiseAsWritten(w, p, PromiseRef(q));
      && r.heap[p].state == Pending && |r.queue| == 0 && Step(r) == r
      && r.heap[p].callbacks ==
           w.heap[p].callbacks + [Callback(TransitionTo(p, Fulfilled), TransitionTo(p, Rejected), w.nextId)]
  {
    assert w.nextId == Then(w, p, TransitionTo(p, Fulfilled), TransitionTo(p, Rejected)).1 by {
      assert w.nextId !in w.heap;
    }
  }

  // ---------------------------------------------------------------------------
  // src/index.js:17 initialises `status`, while lines 64 and 86 read `state`
  // ---------------------------------------------------------------------------

  /** A property of a JavaScript object: never assigned, or holding a state. */
  datatype Slot = Unset | Set(value: State)

  /** The fields the constructor writes as written: `status`, and no `state`. */
  datatype FieldsAsWritten = FieldsAsWritten(status: Slot, state: Slot, result: Value)

  /** The fields of a fresh promise as written (lines 17-18). */
  const FreshAsWritten := FieldsAsWritten(Set(Pending), Unset, Null)

  /** `transition` as written: its guard compares the `state` property with `PENDING`. */
  function TransitionAsWritten(f: FieldsAsWritten, to: SettledState, res: Value): (r: FieldsAsWritten)
    ensures f.state != Set(Pending) ==> r == f
    ensures f.state == Set(Pending) ==> r == FieldsAsWritten(f.status, Set(to), res)
  {
    if f.state != Set(Pending) then f
    else f.(state := Set(to), result := res)
  }

  /** As written, a fresh promise is not pending to `transition`, so it can never settle. */
  lemma FreshNeverSettlesAsWritten(f: FieldsAsWritten, to: SettledState, res: Value)
    requires f == FreshAsWritten
    ensures TransitionAsWritten(f, to, res) == f && f.state == Unset
  {
  }

  // ---------------------------------------------------------------------------
  // src/index.js:41 calls `onRejected(result)` with an identifier not in scope
  // ---------------------------------------------------------------------------

  /**
   * The `reject` closure as written: with the guard open it closes the guard
   * and then throws a ReferenceError before `transition` runs.  The second
   * component says whether the call threw.
   */
  ghost function RejectAsWritten(w: World, p: PromiseId, reason: Value): (r: (World, bool))
    requires WF(w)
    ensures WF(r.0) && Grows(w, r.0)
    ensures r.1 <==> p in w.heap && !w.heap[p].ignore
    ensures r.1 ==> r.0 == CloseGuard(w, p)
    ensures !r.1 ==> r.0 == w
  {
    if p in w.heap && !w.heap[p].ignore then (CloseGuard(w, p), true) else (w, false)
  }

  /**
   * As written, `new Promise((resolve, reject) => reject(e))` throws a
   * ReferenceError out of `reject`; the constructor's `catch` calls `reject`
   * again, which the closed guard ignores.  The promise stays pending with
   * its guard closed, so no later call can settle it.
   */
  lemma RejectionLostAsWritten(w: World, e: Value, later: ResolverCall)
    requires WF(w)
    ensures var (w1, p) := Alloc(w);
      var (w2, threw) := RejectAsWritten(w1, p, e);
      && threw
      && RejectAsWritten(w2, p, e) == (w2, false)
      && w2.heap[p].state == Pending && w2.heap[p].ignore
      && ApplyCall(w2, p, later) == w2
  {
  }

  // ---------------------------------------------------------------------------
  // src/index.js:71 builds an arrow function in the timer task and never calls it
  // ---------------------------------------------------------------------------

  /** Running the oldest task as written: a drain task does nothing. */
  ghost function StepAsWritten(w: World): (r: World)
    requires WF(w)
    ensures WF(r)
    ensures |w.queue| > 0 && w.queue[0].Drain? ==> r == w.(queue := w.queue[1..])
    ensures !(|w.queue| > 0 && w.queue[0].Drain?) ==> r == Step(w)
  {
    if |w.queue| > 0 && w.queue[0].Drain? then Pop(w) else Step(w)
  }

  /**
   * As written, the drain task of a settled promise dispatches none of the
   * callbacks registered before it settled: no handler runs, and the
   * callbacks stay in place with no task left to run them.
   */
  lemma CallbacksNeverRunAsWritten(w: World)
    requires WF(w) && |w.queue| > 0 && w.queue[0].Drain?
    ensures var r := StepAsWritten(w);
      && r.trace == w.trace
      && r.heap == w.heap
      && |r.queue| == |w.queue| - 1
  {
  }
}
