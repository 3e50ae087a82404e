/**
 * The reference semantics of src/index.js: each operation as a function from
 * the runtime state before it to the runtime state after it.  The methods of
 * `PromiseRuntime.Runtime` are proved to compute exactly these functions.
 */
module Semantics {
  import opened Values

  // ---------------------------------------------------------------------------
  // Invariants of the runtime state
  // ---------------------------------------------------------------------------

  /** A queued task still describes the state of the promise it was queued for. */
  ghost predicate TaskValid(heap: map<PromiseId, Rec>, t: Task) {
    match t
    case Drain(p, st, res) => p in heap && heap[p].state == st && heap[p].result == res
    case Dispatch(_, q) => q in heap && heap[q].state != Pending
  }

  /** Addresses below `nextId` only, and only tasks about settled promises. */
  ghost predicate WF(w: World) {
    && (forall p :: p in w.heap ==> p < w.nextId)
    && (forall i :: 0 <= i < |w.queue| ==> TaskValid(w.heap, w.queue[i]))
  }

  /**
   * How one promise record may evolve: callbacks are only appended, the
   * one-shot guard is never reset, and a settled promise keeps its state,
   * its result and its callbacks.
   */
  ghost predicate RecGrows(a: Rec, b: Rec) {
    && a.callbacks <= b.callbacks
    && (a.ignore ==> b.ignore)
    && (a.state != Pending ==> b.state == a.state && b.result == a.result && b.callbacks == a.callbacks)
  }

  /** How the runtime may evolve during one synchronous operation. */
  ghost predicate Grows(w: World, r: World) {
    && w.nextId <= r.nextId
    && w.queue <= r.queue
    && forall p :: p in w.heap ==> p in r.heap && RecGrows(w.heap[p], r.heap[p])
  }

  lemma GrowsTrans(a: World, b: World, c: World)
    requires Grows(a, b) && Grows(b, c)
    ensures Grows(a, c)
  {
    forall p | p in a.heap
      ensures p in c.heap && RecGrows(a.heap[p], c.heap[p])
    {
      assert a.heap[p].callbacks <= b.heap[p].callbacks <= c.heap[p].callbacks;
    }
  }

  /** Tasks queued before an operation stay valid after it. */
  lemma GrowsKeepsTasks(w: World, r: World)
    requires WF(w) && Grows(w, r)
    ensures forall i :: 0 <= i < |w.queue| ==> TaskValid(r.heap, r.queue[i])
  {
    forall i | 0 <= i < |w.queue|
      ensures TaskValid(r.heap, r.queue[i])
    {
      assert r.queue[i] == w.queue[i];
      assert TaskValid(w.heap, w.queue[i]);
    }
  }

  // ---------------------------------------------------------------------------
  // transition (src/index.js:63-73) and allocation (src/index.js:16-19)
  // ---------------------------------------------------------------------------

  /**
   * `transition(promise, state, result)`: a pending promise takes the given
   * state and result and a task that drains its callbacks is queued; any
   * other promise is left as it is.
   */
  ghost function Transition(w: World, p: PromiseId, to: SettledState, res: Value): (r: World)
    requires WF(w)
    ensures WF(r) && Grows(w, r) && r.trace == w.trace && r.nextId == w.nextId
    ensures !(p in w.heap && w.heap[p].state == Pending) ==> r == w
    ensures p in w.heap && w.heap[p].state == Pending ==>
      && r.heap.Keys == w.heap.Keys
      && r.heap[p].state == to && r.heap[p].result == res
      && r.heap[p].callbacks == w.heap[p].callbacks && r.heap[p].ignore == w.heap[p].ignore
      && (forall q :: q in w.heap && q != p ==> r.heap[q] == w.heap[q])
      && r.queue == w.queue + [Drain(p, to, res)]
  {
    if p in w.heap && w.heap[p].state == Pending then
      var r := w.(heap := w.heap[p := w.heap[p].(state := to, result := res)],
                  queue := w.queue + [Drain(p, to, res)]);
      assert forall i :: 0 <= i < |w.queue| ==> r.queue[i] == w.queue[i];
      r
    else
      w
  }

  /** A new pending promise with no callbacks, at the next free address. */
  ghost function Alloc(w: World): (r: (World, PromiseId))
    requires WF(w)
    ensures WF(r.0) && Grows(w, r.0) && r.0.trace == w.trace && r.0.queue == w.queue
    ensures r.1 !in w.heap && r.0.heap == w.heap[r.1 := Fresh]
  {
    var p := w.nextId;
    (w.(heap := w.heap[p := Fresh], nextId := p + 1), p)
  }

  // ---------------------------------------------------------------------------
  // The resolution procedure (src/index.js:119-141)
  // ---------------------------------------------------------------------------

  /** Which rule of the resolution procedure applies to a value. */
  datatype Resolution =
    | SelfResolution                 // the value is the promise itself
    | Adopt(other: PromiseId)        // the value is another promise
    | Assimilate(body: Executor)     // the value is a thenable whose `then` is a function
    | RejectWith(reason: Value)      // reading `then` threw
    | FulfilWith(value: Value)       // anything else

  /**
   * The case analysis of `resolvePromise`, checked in the order of the source:
   * the promise itself, another promise, a thenable, anything else.
   */
  function Classify(p: PromiseId, v: Value): (c: Resolution)
    ensures c.SelfResolution? <==> v == PromiseRef(p)
    ensures c.Adopt? <==> v.PromiseRef? && v.id != p
    ensures c.Adopt? ==> c.other == v.id
    ensures c.Assimilate? <==> v.Thenable? && v.prop.Callable?
    ensures c.Assimilate? ==> v == Thenable(Callable(c.body))
    ensures c.RejectWith? <==> v.Thenable? && v.prop.ThrowsOnRead?
    ensures c.RejectWith? ==> v == Thenable(ThrowsOnRead(c.reason))
    ensures c.FulfilWith? ==> c.value == v
  {
    match v
    case PromiseRef(q) => if q == p then SelfResolution else Adopt(q)
    case Thenable(ThrowsOnRead(e)) => RejectWith(e)
    case Thenable(Callable(body)) => Assimilate(body)
    case _ => FulfilWith(v)
  }

  /**
   * `resolvePromise(promise, result, onFulfilled, onRejected)` with the
   * transition closures of the promise as the last two arguments.  Adoption
   * subscribes to the OTHER promise (the source's line 126 subscribes to
   * `promise` itself; see `Findings`).
   */
  ghost function ResolvePromise(w: World, p: PromiseId, v: Value): (r: World)
    requires WF(w)
    ensures WF(r) && Grows(w, r) && r.trace == w.trace
    decreases v, 0
  {
    match Classify(p, v)
    case SelfResolution => Transition(w, p, Rejected, SelfResolutionError)
    case Adopt(q) => Then(w, q, TransitionTo(p, Fulfilled), TransitionTo(p, Rejected)).0
    case Assimilate(body) =>
      var (w1, t) := NewPromise(w, body);
      var (w2, _) := Then(w1, t, TransitionTo(p, Fulfilled), TransitionTo(p, Rejected));
      GrowsTrans(w, w1, w2);
      w2
    case RejectWith(e) => Transition(w, p, Rejected, e)
    case FulfilWith(x) => Transition(w, p, Fulfilled, x)
  }

  // ---------------------------------------------------------------------------
  // The constructor (src/index.js:16-49)
  // ---------------------------------------------------------------------------

  /** `ignore = true`: closes the one-shot guard of a promise's resolver pair. */
  ghost function CloseGuard(w: World, p: PromiseId): (r: World)
    requires WF(w) && p in w.heap
    ensures WF(r) && Grows(w, r) && r.trace == w.trace && r.queue == w.queue && r.nextId == w.nextId
    ensures r.heap == w.heap[p := w.heap[p].(ignore := true)]
  {
    var r := w.(heap := w.heap[p := w.heap[p].(ignore := true)]);
    GrowsKeepsTasks(w, r);
    r
  }

  /** The `resolve` closure: takes effect only if the guard is still open. */
  ghost function Resolve(w: World, p: PromiseId, v: Value): (r: World)
    requires WF(w)
    ensures WF(r) && Grows(w, r) && r.trace == w.trace
    ensures p in w.heap ==> p in r.heap && r.heap[p].ignore
    ensures !(p in w.heap && !w.heap[p].ignore) ==> r == w
    decreases v, 1
  {
    if p in w.heap && !w.heap[p].ignore then
      var w1 := CloseGuard(w, p);
      var r := ResolvePromise(w1, p, v);
      GrowsTrans(w, w1, r);
      r
    else
      w
  }

  /** The `reject` closure: rejects with the given reason if the guard is still open. */
  ghost function Reject(w: World, p: PromiseId, reason: Value): (r: World)
    requires WF(w)
    ensures WF(r) && Grows(w, r) && r.trace == w.trace && r.nextId == w.nextId
    ensures p in w.heap ==> p in r.heap && r.heap[p].ignore
    ensures !(p in w.heap && !w.heap[p].ignore) ==> r == w
    ensures p in w.heap && !w.heap[p].ignore && w.heap[p].state == Pending ==>
      r.heap[p].state == Rejected && r.heap[p].result == reason
  {
    if p in w.heap && !w.heap[p].ignore then
      var w1 := CloseGuard(w, p);
      var r := Transition(w1, p, Rejected, reason);
      GrowsTrans(w, w1, r);
      r
    else
      w
  }

  /** One call user code makes on a `resolve`/`reject` pair. */
  ghost function ApplyCall(w: World, p: PromiseId, c: ResolverCall): (r: World)
    requires WF(w)
    ensures WF(r) && Grows(w, r) && r.trace == w.trace
    ensures p in w.heap ==> p in r.heap && r.heap[p].ignore
    ensures !(p in w.heap && !w.heap[p].ignore) ==> r == w
    decreases c, 0
  {
    match c
    case CallResolve(v) => Resolve(w, p, v)
    case CallReject(reason) => Reject(w, p, reason)
  }

  /** The first `n` calls of an executor, in order. */
  ghost function RunCalls(w: World, p: PromiseId, e: Executor, n: nat): (r: World)
    requires WF(w) && n <= |e.calls|
    ensures WF(r) && Grows(w, r) && r.trace == w.trace
    ensures n > 0 && p in w.heap ==> p in r.heap && r.heap[p].ignore
    decreases e, n
  {
    if n == 0 then w
    else
      var w1 := RunCalls(w, p, e, n - 1);
      var r := ApplyCall(w1, p, e.calls[n - 1]);
      GrowsTrans(w, w1, r);
      r
  }

  /**
   * `try { f(resolve, reject) } catch (error) { reject(error) }`: the calls,
   * then the guarded rejection if the executor throws.
   */
  ghost function RunExecutor(w: World, p: PromiseId, e: Executor): (r: World)
    requires WF(w)
    ensures WF(r) && Grows(w, r) && r.trace == w.trace
    decreases e, |e.calls| + 1
  {
    var w1 := RunCalls(w, p, e, |e.calls|);
    match e.ending
    case Returns => w1
    case Throws(err) =>
      var r := Reject(w1, p, err);
      GrowsTrans(w, w1, r);
      r
  }

  /** `new Promise(f)`: a fresh pending promise, then its executor, synchronously. */
  ghost function NewPromise(w: World, e: Executor): (r: (World, PromiseId))
    requires WF(w)
    ensures WF(r.0) && Grows(w, r.0) && r.0.trace == w.trace
    ensures r.1 !in w.heap && r.1 in r.0.heap
    decreases e, |e.calls| + 2
  {
    var (w1, p) := Alloc(w);
    var r := RunExecutor(w1, p, e);
    GrowsTrans(w, w1, r);
    (r, p)
  }

  // ---------------------------------------------------------------------------
  // then (src/index.js:82-92)
  // ---------------------------------------------------------------------------

  /**
   * `q.then(onFulfilled, onRejected)`: a fresh promise; one callback record
   * appended to a pending promise, or one dispatch task queued for a settled
   * one.  Nothing else changes and no handler runs.
   */
  ghost function Then(w: World, q: PromiseId, onF: Handler, onR: Handler): (r: (World, PromiseId))
    requires WF(w)
    ensures WF(r.0) && Grows(w, r.0) && r.0.trace == w.trace
    ensures r.1 !in w.heap && r.0.heap.Keys == w.heap.Keys + {r.1} && r.0.heap[r.1] == Fresh
    ensures r.1 == w.nextId && r.0.nextId == w.nextId + 1
    ensures forall x :: x in w.heap && x != q ==> r.0.heap[x] == w.heap[x]
    ensures q in w.heap && w.heap[q].state == Pending ==>
      && r.0.heap[q] == w.heap[q].(callbacks := w.heap[q].callbacks + [Callback(onF, onR, r.1)])
      && r.0.queue == w.queue
    ensures q in w.heap && w.heap[q].state != Pending ==>
      && r.0.heap[q] == w.heap[q]
      && r.0.queue == w.queue + [Dispatch(Callback(onF, onR, r.1), q)]
    ensures q !in w.heap ==> r.0.queue == w.queue
  {
    var (w1, d) := Alloc(w);
    var cb := Callback(onF, onR, d);
    if q in w.heap && w1.heap[q].state == Pending then
      var rq := w1.heap[q].(callbacks := w1.heap[q].callbacks + [cb]);
      var r := w1.(heap := w1.heap[q := rq]);
      assert forall i :: 0 <= i < |w1.queue| ==> TaskValid(r.heap, r.queue[i]) by {
        GrowsKeepsTasks(w1, r);
      }
      GrowsTrans(w, w1, r);
      (r, d)
    else if q in w.heap then
      var r := w1.(queue := w1.queue + [Dispatch(cb, q)]);
      assert forall i :: 0 <= i < |w1.queue| ==> TaskValid(r.heap, r.queue[i]) by {
        GrowsKeepsTasks(w1, r);
      }
      GrowsTrans(w, w1, r);
      (r, d)
    else
      (w1, d)
  }

  // ---------------------------------------------------------------------------
  // handleCallback (src/index.js:94-106) and handleCallbacks (src/index.js:143-147)
  // ---------------------------------------------------------------------------

  /** The handler of a callback that a settlement in state `st` calls. */
  function HandlerFor(cb: Callback, st: SettledState): Handler {
    if st == Fulfilled then cb.onFulfilled else cb.onRejected
  }

  /** Calling a handler that is a function; a transition closure returns `undefined`. */
  function Invoke(h: Handler, arg: Value): Outcome
    requires !h.NotFunction?
  {
    match h
    case UserFn(f) => f(arg)
    case TransitionTo(_, _) => Return(Undefined)
  }

  /**
   * The one call `handleCallback` makes on the downstream promise's
   * `resolve`/`reject` pair (Promises/A+ section 2.2.7).  A value returned by
   * `onRejected` goes through resolution, as section 2.2.7.1 asks; the
   * source's line 101 rejects with it (see `Findings`).
   */
  function Reaction(cb: Callback, st: SettledState, res: Value): (c: ResolverCall)
    ensures st == Fulfilled && cb.onFulfilled.NotFunction? ==> c == CallResolve(res)
    ensures st == Rejected && cb.onRejected.NotFunction? ==> c == CallReject(res)
    ensures !HandlerFor(cb, st).NotFunction? ==>
      match Invoke(HandlerFor(cb, st), res)
      case Return(x) => c == CallResolve(x)
      case Throw(e) => c == CallReject(e)
  {
    var h := HandlerFor(cb, st);
    if h.NotFunction? then
      (if st == Fulfilled then CallResolve(res) else CallReject(res))
    else
      match Invoke(h, res)
      case Return(x) => CallResolve(x)
      case Throw(e) => CallReject(e)
  }

  /** The side effect of a transition closure used as a handler. */
  ghost function HandlerEffect(w: World, h: Handler, arg: Value): (r: World)
    requires WF(w)
    ensures WF(r) && Grows(w, r) && r.trace == w.trace
    ensures !h.TransitionTo? ==> r == w
  {
    if h.TransitionTo? then Transition(w, h.target, h.to, arg) else w
  }

  /**
   * `handleCallback(callback, state, result)`: recorded in the trace, then
   * (for a settled state) the handler runs and the downstream promise gets
   * exactly one resolver call.
   */
  ghost function HandleCallback(w: World, cb: Callback, st: State, res: Value): (r: World)
    requires WF(w)
    ensures WF(r) && Grows(w, r) && r.trace == w.trace + [cb]
  {
    var w0 := w.(trace := w.trace + [cb]);
    if st == Pending then w0
    else
      var w1 := HandlerEffect(w0, HandlerFor(cb, st), res);
      var r := ApplyCall(w1, cb.target, Reaction(cb, st, res));
      GrowsTrans(w0, w1, r);
      r
  }

  /** `handleCallbacks`: every callback of the list, first to last. */
  ghost function HandleAll(w: World, cbs: seq<Callback>, st: State, res: Value): (r: World)
    requires WF(w)
    ensures WF(r) && Grows(w, r) && r.trace == w.trace + cbs
    decreases |cbs|
  {
    if |cbs| == 0 then w
    else
      var w1 := HandleCallback(w, cbs[0], st, res);
      var r := HandleAll(w1, cbs[1..], st, res);
      GrowsTrans(w, w1, r);
      assert [cbs[0]] + cbs[1..] == cbs;
      r
  }

  // ---------------------------------------------------------------------------
  // The timer queue
  // ---------------------------------------------------------------------------

  /** Takes the oldest task off the queue. */
  ghost function Pop(w: World): (r: World)
    requires WF(w) && |w.queue| > 0
    ensures WF(r) && r == w.(queue := w.queue[1..])
  {
    var r := w.(queue := w.queue[1..]);
    assert forall i :: 0 <= i < |r.queue| ==> r.queue[i] == w.queue[i + 1];
    r
  }

  /** Empties the callback list of a promise, as the `shift()` loop of `handleCallbacks` does. */
  ghost function ClearCallbacks(w: World, p: PromiseId): (r: World)
    requires WF(w) && p in w.heap
    ensures WF(r) && r == w.(heap := w.heap[p := w.heap[p].(callbacks := [])])
  {
    var r := w.(heap := w.heap[p := w.heap[p].(callbacks := [])]);
    assert forall i :: 0 <= i < |r.queue| ==> TaskValid(w.heap, r.queue[i]) ==> TaskValid(r.heap, r.queue[i]);
    r
  }

  /**
   * Runs the oldest queued task, if there is one.  A drain task empties the
   * callback list of its promise and dispatches what it held.
   */
  ghost function Step(w: World): (r: World)
    requires WF(w)
    ensures WF(r)
  {
    if |w.queue| == 0 then w
    else
      var w1 := Pop(w);
      match w.queue[0]
      case Drain(p, st, res) =>
        if p in w1.heap then HandleAll(ClearCallbacks(w1, p), w1.heap[p].callbacks, st, res) else w1
      case Dispatch(cb, q) =>
        if q in w1.heap then HandleCallback(w1, cb, w1.heap[q].state, w1.heap[q].result) else w1
  }
}
