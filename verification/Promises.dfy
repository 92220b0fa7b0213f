/** The promise engine of one thread as a state machine on values: promise cells, the pending callback
    queue, the suspended async functions and the oneshot tasks. */
module Promises {
  import opened Scripts

  /** A callback given to `then`/`_catch`: user code, or the resumption of a suspended async function. */
  datatype Handler =
    | Closure(isVoid: bool, env: Env, body: Script)
    | Resume(gen: nat)

  /** An entry of a wrapper list.  `child` is the promise that `then`/`_catch` returned; `Adopt` is the
      internal wrapper that `associate_status` leaves on a pending inner promise. */
  datatype Wrapper =
    | Handle(handler: Handler, child: nat)
    | Adopt(outer: nat)

  /** How a promise came to be. */
  datatype Def =
    | Root
    | Given(fate: Settled)
    | Chained(side: Side, parent: nat, handler: Handler)
    | AsyncOf(env: Env, body: Script)

  /** A call of `resolve`/`reject` through the context of a promise. */
  datatype CtxCall = Direct(fate: Settled) | Following(q: nat)

  /** A promise cell.  `def` and `calls` are history: nothing the library does depends on them. */
  datatype Cell = Cell(fate: Fate, pendingCallback: bool, fulfilled: seq<Wrapper>, rejected: seq<Wrapper>,
                       def: Def, calls: seq<CtxCall>) {
    function List(side: Side): seq<Wrapper> {
      if side.OnValue? then fulfilled else rejected
    }

    function WithList(side: Side, ws: seq<Wrapper>): Cell {
      if side.OnValue? then this.(fulfilled := ws) else this.(rejected := ws)
    }
  }

  /** Status of the generator under an async function.  A suspended one remembers the promise it awaits
      and the two promises returned by the `then` and the `_catch` that await armed. */
  datatype GenStatus =
    | RUNNING
    | SUSPENDED(env: Env, onValue: Script, onError: Script, awaited: nat, nextChild: nat, throwChild: nat)
    | DONE

  datatype Coroutine = Coroutine(owner: nat, status: GenStatus)

  /** One execution of a handler: `promise` called back the handler that `child` stands for. */
  datatype Entry = Entry(promise: nat, child: nat, arg: Settled)

  /** A permanent task of the task loop: `promise_task`, or user code. */
  datatype Task = RunPromiseTask | RunCode(env: Env, body: Script)

  datatype State = State(cells: seq<Cell>, queue: seq<nat>, gens: seq<Coroutine>, permanents: seq<Task>,
                         oneshots: seq<Handler>, log: seq<Entry>)

  datatype Outcome = Returned(value: Value) | ReturnedPromise(p: nat) | Threw(error: Error) | Suspended

  // ---------------------------------------------------------------------------------------------
  // Operations on promises
  // ---------------------------------------------------------------------------------------------

  function FreshCell(def: Def, fate: Fate): Cell {
    Cell(fate, false, [], [], def, [])
  }

  function Alloc(st: State, def: Def, fate: Fate): State {
    st.(cells := st.cells + [FreshCell(def, fate)])
  }

  function SetCell(st: State, p: nat, c: Cell): State
    requires p < |st.cells|
  {
    st.(cells := st.cells[p := c])
  }

  /** `resolve_impl` with a value, and `reject_impl`. */
  function Settle(st: State, p: nat, f: Settled): State
    requires p < |st.cells|
  {
    if !st.cells[p].fate.Pending? then st
    else SetCell(st, p, st.cells[p].(fate := f, pendingCallback := true)).(queue := st.queue + [p])
  }

  /** `associate_status`. */
  function Associate(st: State, outer: nat, inner: nat): State
    requires outer < |st.cells| && inner < |st.cells|
  {
    var c := st.cells[inner];
    if c.fate.Pending? then
      SetCell(st, inner, c.(fulfilled := c.fulfilled + [Adopt(outer)], rejected := c.rejected + [Adopt(outer)]))
    else Settle(st, outer, c.fate)
  }

  /** `resolve_impl` with a promise. */
  function Adoption(st: State, outer: nat, inner: nat): State
    requires outer < |st.cells| && inner < |st.cells|
  {
    if !st.cells[outer].fate.Pending? then st else Associate(st, outer, inner)
  }

  function Record(st: State, p: nat, call: CtxCall): State
    requires p < |st.cells|
  {
    SetCell(st, p, st.cells[p].(calls := st.cells[p].calls + [call]))
  }

  /** A `PromiseCtx` is handed to the executor of a promise; promises that were made otherwise have none
      that user code could call. */
  predicate HasContext(st: State, p: nat)
    requires p < |st.cells|
  {
    st.cells[p].def.Root?
  }

  /** A call through the promise's context. */
  function CtxSettle(st: State, p: nat, f: Settled): State
    requires p < |st.cells|
  {
    Settle(Record(st, p, Direct(f)), p, f)
  }

  function CtxFollow(st: State, p: nat, q: nat): State
    requires p < |st.cells| && q < |st.cells|
  {
    Adoption(Record(st, p, Following(q)), p, q)
  }

  /** `Promise<T>::resolved(v)` and `Promise<T>::rejected(e)` make a settled cell; those of
      `Promise<void>` settle a pending one, which puts it into the queue. */
  function AllocSettled(st: State, isVoid: bool, f: Settled): State {
    if isVoid then Settle(Alloc(st, Given(f), Pending), |st.cells|, f) else Alloc(st, Given(f), f)
  }

  /** `then` (side OnValue) and `_catch` (side OnError); the new cell is the promise they return. */
  function Register(st: State, side: Side, p: nat, h: Handler): State
    requires p < |st.cells|
  {
    var child := |st.cells|;
    var st1 := Alloc(st, Chained(side, p, h), Pending);
    var c := st1.cells[p];
    if !c.fate.Pending? && Way(c.fate) != side then st1
    else
      var st2 := if !c.fate.Pending? && !c.pendingCallback
                 then SetCell(st1, p, c.(pendingCallback := true)).(queue := st1.queue + [p]) else st1;
      SetCell(st2, p, st2.cells[p].WithList(side, st2.cells[p].List(side) + [Handle(h, child)]))
  }

  // ---------------------------------------------------------------------------------------------
  // Running user code
  // ---------------------------------------------------------------------------------------------

  function SetGen(st: State, g: nat, s: GenStatus): State
    requires g < |st.gens|
  {
    st.(gens := st.gens[g := st.gens[g].(status := s)])
  }

  /** The two callbacks of an await, which resume generator `g`. */
  function Armed(st: State, g: nat, p: nat): State
    requires p < |st.cells|
  {
    Register(Register(st, OnValue, p, Resume(g)), OnError, p, Resume(g))
  }

  /** `await_impl`: arm a `then` and a `_catch` that resume the generator, then yield. */
  function Arm(st: State, g: nat, p: nat, env: Env, kv: Script, ke: Script): State
    requires g < |st.gens| && p < |st.cells|
  {
    SetGen(Armed(st, g, p), g, SUSPENDED(env, kv, ke, p, |st.cells|, |st.cells| + 1))
  }

  /** The end of the executor that `async_func` wraps around the body: it settles the promise of the
      async function unless the body is suspended, and the generator is done. */
  function FinishGen(st: State, g: nat, p: nat, o: Outcome): (st': State)
    requires g < |st.gens| && p < |st.cells|
    requires o.ReturnedPromise? ==> o.p < |st.cells|
    ensures |st'.cells| == |st.cells| && |st'.gens| == |st.gens|
  {
    if o.Suspended? then st
    else
      var st1 := SetGen(st, g, DONE);
      match o
      case Returned(v) => Settle(st1, p, Resolved(v))
      case ReturnedPromise(q) => Adoption(st1, p, q)
      case Threw(e) => Settle(st1, p, Rejected(e))
  }

  predicate EnvOk(env: Env, n: nat) {
    forall i :: 0 <= i < |env.proms| ==> env.proms[i] < n
  }

  /** The environment and the state after a library call. */
  function LibraryCall(op: Op, env: Env, st: State): (r: (Env, State))
    requires ScopedOp(op, |env.proms|) && EnvOk(env, |st.cells|)
    ensures |r.1.cells| >= |st.cells| && r.1.gens == st.gens
    ensures EnvOk(r.0, |r.1.cells|) && |r.0.proms| == |env.proms| + Binds(op)
  {
    match op
    case New => (env.WithPromise(|st.cells|), Alloc(st, Root, Pending))
    case NewSettled(isVoid, f) => (env.WithPromise(|st.cells|), AllocSettled(st, isVoid, f(env.data)))
    case Chain(side, r, isVoid, body) =>
      (env.WithPromise(|st.cells|), Register(st, side, env.proms[r], Closure(isVoid, env, body)))
    case SettleWith(r, f) =>
      (env, if HasContext(st, env.proms[r]) then CtxSettle(st, env.proms[r], f(env.data)) else st)
    case Follow(r, q) =>
      (env, if HasContext(st, env.proms[r]) then CtxFollow(st, env.proms[r], env.proms[q]) else st)
    case Oneshot(body) => (env, st.(oneshots := st.oneshots + [Closure(true, env, body)]))
    case Permanent(body) => (env, st.(permanents := st.permanents + [RunCode(env, body)]))
  }

  /** Run `s`; `cur` is the generator it runs in, or negative. */
  function Exec(s: Script, env: Env, cur: int, st: State): (r: (State, Outcome))
    requires EnvOk(env, |st.cells|) && cur < |st.gens|
    requires Scoped(s, |env.proms|, 0 <= cur)
    ensures |r.0.cells| >= |st.cells| && |r.0.gens| >= |st.gens|
    ensures r.1.ReturnedPromise? ==> r.1.p < |r.0.cells|
    decreases s, 0
  {
    match s
    case Return(e) => (st, Returned(e(env.data)))
    case ReturnPromise(r) => (st, ReturnedPromise(env.proms[r]))
    case Throw(e) => (st, Threw(e(env.data)))
    case If(t, a, b) => Exec(if t(env.data) then a else b, env, cur, st)
    case Do(op, k) =>
      var r := LibraryCall(op, env, st);
      Exec(k, r.0, cur, r.1)
    case Call(body, k) => Exec(k, env.WithPromise(|st.cells|), cur, CallAsync(st, env, body))
    case Await(r, kv, ke) => (Arm(st, cur, env.proms[r], env, kv, ke), Suspended)
  }

  /** Call an async function; its promise is the first new cell. */
  function CallAsync(st: State, env: Env, body: Script): (st': State)
    requires EnvOk(env, |st.cells|) && Scoped(body, |env.proms|, true)
    ensures |st'.cells| > |st.cells| && |st'.gens| > |st.gens|
    decreases body, 1
  {
    var r := Exec(body, env, |st.gens|, StartAsync(st, env, body));
    FinishGen(r.0, |st.gens|, |st.cells|, r.1)
  }

  /** The promise and the generator of a call of an async function, the generator being switched to. */
  function StartAsync(st: State, env: Env, body: Script): State {
    var st1 := Alloc(st, AsyncOf(env, body), Pending);
    st1.(gens := st1.gens + [Coroutine(|st.cells|, RUNNING)])
  }

  // ---------------------------------------------------------------------------------------------
  // Calling back
  // ---------------------------------------------------------------------------------------------

  predicate HandlerOk(h: Handler, st: State) {
    match h
    case Closure(_, env, body) => EnvOk(env, |st.cells|) && Scoped(body, |env.proms|, false)
    case Resume(g) => g < |st.gens|
  }

  predicate TaskOk(t: Task, st: State) {
    t.RunCode? ==> EnvOk(t.env, |st.cells|) && Scoped(t.body, |t.env.proms|, false)
  }

  predicate FrameOk(g: Coroutine, n: nat) {
    && g.owner < n
    && (g.status.SUSPENDED? ==>
          && g.status.awaited < n && g.status.nextChild < n && g.status.throwChild < n
          && EnvOk(g.status.env, n)
          && Scoped(g.status.onValue, |g.status.env.proms|, true)
          && Scoped(g.status.onError, |g.status.env.proms|, true))
  }

  /** `gen.next(&value)` or `gen._throw(error)`; the generator is RUNNING from here on. */
  function Switch(st: State, h: Handler): State
    requires HandlerOk(h, st)
  {
    if h.Resume? && st.gens[h.gen].status.SUSPENDED? then SetGen(st, h.gen, RUNNING) else st
  }

  /** `FulfilledHelper`/`RejectedHelper` and the rest of the wrapper: turn what the handler did into an
      inner promise and associate the child with it. */
  function Conclude(st: State, child: nat, isVoid: bool, o: Outcome): State
    requires child < |st.cells|
    requires o.ReturnedPromise? ==> o.p < |st.cells|
  {
    match o
    case Returned(v) => Associate(AllocSettled(st, isVoid, Resolved(v)), child, |st.cells|)
    case ReturnedPromise(q) => Associate(st, child, q)
    case Threw(e) => Associate(AllocSettled(st, isVoid, Rejected(e)), child, |st.cells|)
    case Suspended => st
  }

  /** Resume generator `g`, whose status was `was` when the callback started. */
  function RunResume(st: State, g: nat, was: GenStatus, arg: Settled): (r: (State, Outcome))
    requires g < |st.gens| && FrameOk(Coroutine(st.gens[g].owner, was), |st.cells|)
    ensures |r.0.cells| >= |st.cells| && |r.0.gens| >= |st.gens|
    ensures r.1.ReturnedPromise? ==> r.1.p < |r.0.cells|
  {
    match was
    case SUSPENDED(env, kv, ke, _, _, _) =>
      var r := Exec(if arg.Resolved? then kv else ke, env.WithArg(arg), g, st);
      (FinishGen(r.0, g, st.gens[g].owner, r.1), Returned(Blank))
    case DONE => (st, if arg.Rejected? then Threw(arg.error) else Returned(Blank))
    case RUNNING => (st, Threw(AlreadyRunning))
  }

  function RunHandler(st: State, h: Handler, was: GenStatus, arg: Settled): (r: (State, Outcome))
    requires HandlerOk(h, st)
    requires h.Resume? ==> FrameOk(Coroutine(st.gens[h.gen].owner, was), |st.cells|)
    ensures |r.0.cells| >= |st.cells| && |r.0.gens| >= |st.gens|
    ensures r.1.ReturnedPromise? ==> r.1.p < |r.0.cells|
  {
    match h
    case Closure(_, env, body) => Exec(body, env.WithArg(arg), -1, st)
    case Resume(g) => RunResume(st, g, was, arg)
  }

  function IsVoid(h: Handler): bool {
    h.Resume? || h.isVoid
  }
}
