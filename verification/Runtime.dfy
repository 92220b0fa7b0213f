/** The promise engine as it runs: promise cells are objects that the operations update in place, and
    the callback loops walk over lists that grow under them.  Every method is proved to do what the
    state machine of module `Promises` does. */
module Runtime {
  import opened Scripts
  import opened Promises
  import opened Invariant
  import opened Draining
  import opened Weights
  import opened TaskLoops

  datatype PromiseStatus = PENDING | RESOLVED | REJECTED

  /** Promise data.  `value` is meaningful once RESOLVED, `error` once REJECTED. */
  class PromiseData {
    var status: PromiseStatus
    var pendingCallback: bool
    var value: Value
    var fulfilledWrappers: seq<Wrapper>
    var error: Error
    var rejectedWrappers: seq<Wrapper>
    // How the promise was made: the source knows it by where a `PromiseCtx` for it can be had.
    const def: Def
    ghost var calls: seq<CtxCall>

    constructor (def: Def)
      ensures View() == FreshCell(def, Pending)
    {
      status, pendingCallback := PENDING, false;
      value, error := Blank, Error(0);
      fulfilledWrappers, rejectedWrappers := [], [];
      this.def, calls := def, [];
    }

    function Fate(): Fate
      reads this
    {
      match status
      case PENDING => Pending
      case RESOLVED => Resolved(value)
      case REJECTED => Rejected(error)
    }

    function List(side: Side): seq<Wrapper>
      reads this
    {
      if side.OnValue? then fulfilledWrappers else rejectedWrappers
    }

    /** The cell as the state machine sees it. */
    ghost function View(): Cell
      reads this
    {
      Cell(Fate(), pendingCallback, fulfilledWrappers, rejectedWrappers, def, calls)
    }

    /** The same while `n` wrappers of the list being called back are behind the cursor. */
    ghost function ViewFrom(n: nat): Cell
      reads this
      requires n > 0 ==> status != PENDING && n <= |List(Way(Fate()))|
    {
      if n == 0 then View() else View().WithList(Way(Fate()), List(Way(Fate()))[n..])
    }
  }

  /** What one thread shares between its promises.  A handle - the `shared_ptr` of the source - is the
      position of a cell among all those allocated so far. */
  class Thread {
    var cells: seq<PromiseData>
    var pendingCallbackQueue: seq<nat>
    var gens: seq<Coroutine>
    var oneshots: seq<Handler>
    var permanentQueue: seq<Task>
    ghost var log: seq<Entry>
    // Cursors of the two loops of the drain: queue entries done with, and wrappers of the current
    // entry's list already called.
    ghost var queueDone: nat
    ghost var wrappersDone: nat

    ghost predicate Valid()
      reads this, cells
    {
      && (forall i, j :: 0 <= i < j < |cells| ==> cells[i] != cells[j])
      && queueDone <= |pendingCallbackQueue|
      && (wrappersDone > 0 ==>
            && queueDone < |pendingCallbackQueue| && Current() < |cells|
            && cells[Current()].status != PENDING
            && wrappersDone <= |cells[Current()].List(Way(cells[Current()].Fate()))|)
    }

    ghost function Current(): nat
      reads this
      requires queueDone < |pendingCallbackQueue|
    {
      pendingCallbackQueue[queueDone]
    }

    ghost function Behind(i: nat): nat
      reads this
      requires queueDone <= |pendingCallbackQueue|
    {
      if queueDone < |pendingCallbackQueue| && i == pendingCallbackQueue[queueDone] then wrappersDone else 0
    }

    ghost function Views(): (cs: seq<Cell>)
      reads this, cells
      requires Valid()
      ensures |cs| == |cells|
    {
      seq(|cells|, i requires 0 <= i < |cells| reads this, cells requires Valid() => cells[i].ViewFrom(Behind(i)))
    }

    ghost function Abs(): (st: State)
      reads this, cells
      requires Valid()
      ensures |st.cells| == |cells|
    {
      State(Views(), pendingCallbackQueue[queueDone..], gens, permanentQueue, oneshots, log)
    }

    /** Objects are only added. */
    twostate predicate Extended()
      reads this
    {
      && old(cells) <= cells
      && (forall i :: |old(cells)| <= i < |cells| ==> fresh(cells[i]))
    }

    /** Objects are only added, and the cursors are where they were. */
    twostate predicate Kept()
      reads this
    {
      && Extended()
      && old(pendingCallbackQueue) <= pendingCallbackQueue
      && queueDone == old(queueDone) && wrappersDone == old(wrappersDone)
    }

    /** A thread before anything is set up. */
    constructor ()
      ensures Valid() && Abs() == State([], [], [], [], [], [])
      ensures cells == [] && queueDone == 0 && wrappersDone == 0
    {
      cells, pendingCallbackQueue, gens, oneshots := [], [], [], [];
      permanentQueue := [];
      log, queueDone, wrappersDone := [], 0, 0;
    }

    /** `promise_init`: a new pending callback queue, and `promise_task` behind the tasks that the task loop
        has. */
    method PromiseInit()
      requires Valid() && queueDone == 0 && wrappersDone == 0
      modifies this`pendingCallbackQueue, this`permanentQueue
      ensures Valid() && pendingCallbackQueue == []
      ensures Abs() == old(Abs()).(queue := [], permanents := old(permanentQueue) + [RunPromiseTask])
    {
      pendingCallbackQueue := [];
      Add(RunPromiseTask);
      assert Views() == old(Views());
    }

    /** `Promise<T>::Promise()`. */
    method Allocate(def: Def) returns (p: nat)
      requires Valid()
      modifies this
      ensures Valid() && Kept() && Abs() == Alloc(old(Abs()), def, Pending)
      ensures p == |old(cells)| && cells[p].status == PENDING && Behind(p) == 0
      ensures pendingCallbackQueue == old(pendingCallbackQueue)
    {
      ghost var before := Abs();
      var data := new PromiseData(def);
      p := |cells|;
      assert queueDone < |pendingCallbackQueue| && wrappersDone > 0 ==> Current() < p;
      cells := cells + [data];
      assert forall i :: 0 <= i < p ==> Abs().cells[i] == before.cells[i];
      assert Abs().cells == before.cells + [FreshCell(def, Pending)];
    }

    /** A method that touched no cell but `p`, and only appended to the queue. */
    twostate lemma OnlyCell(p: nat)
      requires old(Valid()) && Valid() && cells == old(cells) && p < |cells|
      requires forall i :: 0 <= i < |cells| && i != p ==> unchanged(cells[i])
      requires queueDone == old(queueDone) && wrappersDone == old(wrappersDone)
      requires old(pendingCallbackQueue) <= pendingCallbackQueue
      ensures Abs().cells == old(Abs()).cells[p := cells[p].ViewFrom(Behind(p))]
      ensures Behind(p) == old(Behind(p))
      ensures Abs().queue == old(Abs()).queue + pendingCallbackQueue[|old(pendingCallbackQueue)|..]
    {
      var n := |old(pendingCallbackQueue)|;
      assert pendingCallbackQueue[queueDone..] == pendingCallbackQueue[queueDone..n] + pendingCallbackQueue[n..];
      assert pendingCallbackQueue[queueDone..n] == old(pendingCallbackQueue)[queueDone..];
      forall i | 0 <= i < |cells| && i != p ensures Abs().cells[i] == old(Abs()).cells[i] {
        assert old(cells[i]).View() == old(cells[i].View());
      }
    }

    /** `resolve_impl` with a value. */
    method ResolveImpl(p: nat, value: Value)
      requires Valid() && p < |cells|
      modifies this`pendingCallbackQueue, cells
      ensures Valid() && Kept() && Abs() == Settle(old(Abs()), p, Resolved(value))
    {
      var data := cells[p];
      if data.status != PENDING { return; }
      data.status := RESOLVED;
      data.value := value;
      data.pendingCallback := true;
      pendingCallbackQueue := pendingCallbackQueue + [p];
      OnlyCell(p);
    }

    /** `reject_impl`. */
    method RejectImpl(p: nat, error: Error)
      requires Valid() && p < |cells|
      modifies this`pendingCallbackQueue, cells
      ensures Valid() && Kept() && Abs() == Settle(old(Abs()), p, Rejected(error))
    {
      var data := cells[p];
      if data.status != PENDING { return; }
      data.status := REJECTED;
      data.error := error;
      data.pendingCallback := true;
      pendingCallbackQueue := pendingCallbackQueue + [p];
      OnlyCell(p);
    }

    /** `associate_status`. */
    method AssociateStatus(outer: nat, inner: nat)
      requires Valid() && outer < |cells| && inner < |cells|
      modifies this`pendingCallbackQueue, cells
      ensures Valid() && Kept() && Abs() == Associate(old(Abs()), outer, inner)
    {
      var innerData := cells[inner];
      match innerData.status
      case RESOLVED => ResolveImpl(outer, innerData.value);
      case REJECTED => RejectImpl(outer, innerData.error);
      case PENDING =>
        innerData.fulfilledWrappers := innerData.fulfilledWrappers + [Adopt(outer)];
        innerData.rejectedWrappers := innerData.rejectedWrappers + [Adopt(outer)];
        OnlyCell(inner);
    }

    /** `resolve_impl` with a promise. */
    method ResolveWith(p: nat, promise: nat)
      requires Valid() && p < |cells| && promise < |cells|
      modifies this`pendingCallbackQueue, cells
      ensures Valid() && Kept() && Abs() == Adoption(old(Abs()), p, promise)
    {
      if cells[p].status != PENDING { return; }
      AssociateStatus(p, promise);
    }

    /** `PromiseCtx<T>::resolve` and `PromiseCtx<T>::reject`. */
    method CtxSettleWith(p: nat, f: Settled)
      requires Valid() && p < |cells|
      modifies this`pendingCallbackQueue, cells
      ensures Valid() && Kept() && Abs() == CtxSettle(old(Abs()), p, f)
    {
      cells[p].calls := cells[p].calls + [Direct(f)];
      OnlyCell(p);
      assert Abs() == Record(old(Abs()), p, Direct(f));
      if f.Resolved? { ResolveImpl(p, f.value); } else { RejectImpl(p, f.error); }
    }

    method CtxResolveWith(p: nat, promise: nat)
      requires Valid() && p < |cells| && promise < |cells|
      modifies this`pendingCallbackQueue, cells
      ensures Valid() && Kept() && Abs() == CtxFollow(old(Abs()), p, promise)
    {
      cells[p].calls := cells[p].calls + [Following(promise)];
      OnlyCell(p);
      assert Abs() == Record(old(Abs()), p, Following(promise));
      ResolveWith(p, promise);
    }

    /** `Promise<T>::resolved` and `Promise<T>::rejected`, and those of `Promise<void>`. */
    method NewSettledPromise(isVoid: bool, f: Settled) returns (p: nat)
      requires Valid()
      modifies this, cells
      ensures Valid() && Kept() && Abs() == AllocSettled(old(Abs()), isVoid, f)
      ensures p == |old(cells)|
    {
      ghost var before := Abs();
      p := Allocate(Given(f));
      if isVoid {
        match f {
          case Resolved(v) => ResolveImpl(p, v);
          case Rejected(e) => RejectImpl(p, e);
        }
      } else {
        InitSettled(p, f);
        assert Abs().cells == before.cells + [FreshCell(Given(f), f)];
      }
    }

    /** Give a pending promise its status and payload without telling anyone. */
    method InitSettled(p: nat, f: Settled)
      requires Valid() && p < |cells| && cells[p].status == PENDING
      modifies cells[p]
      ensures Valid() && Kept() && Abs() == SetCell(old(Abs()), p, old(Abs()).cells[p].(fate := f))
    {
      if f.Resolved? {
        cells[p].status, cells[p].value := RESOLVED, f.value;
      } else {
        cells[p].status, cells[p].error := REJECTED, f.error;
      }
      OnlyCell(p);
    }

    /** Flag a settled promise and push it onto the pending callback queue. */
    method Enqueue(p: nat)
      requires Valid() && p < |cells| && cells[p].status != PENDING
      modifies this`pendingCallbackQueue, cells[p]
      ensures Valid() && Kept() && cells == old(cells) && cells[p].pendingCallback
      ensures var st := old(Abs());
              Abs() == SetCell(st, p, st.cells[p].(pendingCallback := true)).(queue := st.queue + [p])
    {
      cells[p].pendingCallback := true;
      pendingCallbackQueue := pendingCallbackQueue + [p];
      OnlyCell(p);
    }

    /** Push a wrapper onto one of the lists of `p`. */
    method Push(p: nat, side: Side, w: Wrapper)
      requires Valid() && p < |cells|
      modifies cells[p]
      ensures Valid() && Kept()
      ensures var c := old(Abs()).cells[p];
              Abs() == SetCell(old(Abs()), p, c.WithList(side, c.List(side) + [w]))
    {
      var data := cells[p];
      ghost var n, ws := Behind(p), data.List(side);
      if side.OnValue? {
        data.fulfilledWrappers := data.fulfilledWrappers + [w];
      } else {
        data.rejectedWrappers := data.rejectedWrappers + [w];
      }
      assert n <= |ws| ==> (ws + [w])[n..] == ws[n..] + [w];
      ghost var c := old(data.ViewFrom(Behind(p)));
      assert data.ViewFrom(n) == c.WithList(side, c.List(side) + [w]);
      OnlyCell(p);
    }

    /** `then`.  On a rejected promise nothing is registered and the new promise stays as it is. */
    method Then(p: nat, h: Handler) returns (child: nat)
      requires Valid() && p < |cells|
      modifies this, cells
      ensures Valid() && Kept() && Abs() == Register(old(Abs()), OnValue, p, h)
      ensures child == |old(cells)|
    {
      child := Allocate(Chained(OnValue, p, h));
      if cells[p].status == REJECTED { return; }
      if cells[p].status == RESOLVED && !cells[p].pendingCallback { Enqueue(p); }
      Push(p, OnValue, Handle(h, child));
    }

    /** `_catch`. */
    method Catch(p: nat, h: Handler) returns (child: nat)
      requires Valid() && p < |cells|
      modifies this, cells
      ensures Valid() && Kept() && Abs() == Register(old(Abs()), OnError, p, h)
      ensures child == |old(cells)|
    {
      child := Allocate(Chained(OnError, p, h));
      if cells[p].status == RESOLVED { return; }
      if cells[p].status == REJECTED && !cells[p].pendingCallback { Enqueue(p); }
      Push(p, OnError, Handle(h, child));
    }

    // ---------------------------------------------------------------------------------------------
    // User code calling the library
    // ---------------------------------------------------------------------------------------------

    /** One library call made by user code. */
    method MakeCall(op: Op, env: Env) returns (env': Env)
      requires Valid() && ScopedOp(op, |env.proms|) && EnvOk(env, |cells|)
      modifies this, cells
      ensures Valid() && Kept() && env' == LibraryCall(op, env, old(Abs())).0
      ensures Abs() == LibraryCall(op, env, old(Abs())).1
    {
      env' := env;
      match op {
        case New =>
          var p := Allocate(Root);
          env' := env.WithPromise(p);
        case NewSettled(isVoid, f) =>
          var p := NewSettledPromise(isVoid, f(env.data));
          env' := env.WithPromise(p);
        case Chain(side, r, isVoid, body) =>
          var child: nat;
          if side.OnValue? {
            child := Then(env.proms[r], Closure(isVoid, env, body));
          } else {
            child := Catch(env.proms[r], Closure(isVoid, env, body));
          }
          env' := env.WithPromise(child);
        case SettleWith(r, f) =>
          if cells[env.proms[r]].def.Root? { CtxSettleWith(env.proms[r], f(env.data)); }
        case Follow(r, q) =>
          if cells[env.proms[r]].def.Root? { CtxResolveWith(env.proms[r], env.proms[q]); }
        case Oneshot(body) => AddOneshot(Closure(true, env, body));
        case Permanent(body) => Add(RunCode(env, body));
      }
    }

    method SetStatus(g: nat, s: GenStatus)
      requires Valid() && g < |gens|
      modifies this`gens
      ensures Valid() && Kept() && Abs() == SetGen(old(Abs()), g, s)
    {
      gens := gens[g := gens[g].(status := s)];
      assert Abs().cells == old(Abs()).cells;
    }

    method StartGenerator(p: nat) returns (g: nat)
      requires Valid()
      modifies this`gens
      ensures Valid() && Kept() && g == |old(gens)|
      ensures Abs() == old(Abs()).(gens := old(gens) + [Coroutine(p, RUNNING)])
    {
      g := |gens|;
      gens := gens + [Coroutine(p, RUNNING)];
      assert Abs().cells == old(Abs()).cells;
    }

    /** `await_impl`: two callbacks that resume the generator, then yield. */
    method AwaitImpl(p: nat, g: nat, env: Env, onValue: Script, onError: Script)
      requires Valid() && p < |cells| && g < |gens|
      modifies this, cells
      ensures Valid() && Kept() && Abs() == Arm(old(Abs()), g, p, env, onValue, onError)
    {
      var nextChild := Then(p, Resume(g));
      var throwChild := Catch(p, Resume(g));
      SetStatus(g, SUSPENDED(env, onValue, onError, p, nextChild, throwChild));
    }

    /** The end of an async body. */
    method Complete(g: nat, p: nat, o: Outcome)
      requires Valid() && g < |gens| && p < |cells| && (o.ReturnedPromise? ==> o.p < |cells|)
      modifies this, cells
      ensures Valid() && Kept() && Abs() == FinishGen(old(Abs()), g, p, o)
    {
      if o.Suspended? { return; }
      SetStatus(g, DONE);
      match o
      case Returned(v) => ResolveImpl(p, v);
      case ReturnedPromise(q) => ResolveWith(p, q);
      case Threw(e) => RejectImpl(p, e);
    }

    /** Run user code in generator `cur`, or outside any generator. */
    method Execute(s: Script, env: Env, cur: int) returns (o: Outcome)
      requires Valid() && EnvOk(env, |cells|) && cur < |gens| && Scoped(s, |env.proms|, 0 <= cur)
      modifies this, cells
      ensures Valid() && Kept()
      ensures (Abs(), o) == Exec(s, env, cur, old(Abs()))
      decreases s, 1
    {
      match s
      case Return(e) => o := Returned(e(env.data));
      case ReturnPromise(r) => o := ReturnedPromise(env.proms[r]);
      case Throw(e) => o := Threw(e(env.data));
      case If(t, a, b) =>
        if t(env.data) { o := Execute(a, env, cur); } else { o := Execute(b, env, cur); }
      case Do(op, k) => o := ExecuteDo(op, k, env, cur);
      case Call(body, k) => o := ExecuteCall(body, k, env, cur);
      case Await(r, kv, ke) =>
        AwaitImpl(env.proms[r], cur, env, kv, ke);
        o := Suspended;
    }

    method ExecuteDo(op: Op, k: Script, env: Env, cur: int) returns (o: Outcome)
      requires Valid() && EnvOk(env, |cells|) && cur < |gens| && Scoped(Do(op, k), |env.proms|, 0 <= cur)
      modifies this, cells
      ensures Valid() && Kept()
      ensures (Abs(), o) == Exec(Do(op, k), env, cur, old(Abs()))
      decreases Do(op, k), 0
    {
      var env' := MakeCall(op, env);
      o := Execute(k, env', cur);
    }

    method ExecuteCall(body: Script, k: Script, env: Env, cur: int) returns (o: Outcome)
      requires Valid() && EnvOk(env, |cells|) && cur < |gens| && Scoped(Call(body, k), |env.proms|, 0 <= cur)
      modifies this, cells
      ensures Valid() && Kept()
      ensures (Abs(), o) == Exec(Call(body, k), env, cur, old(Abs()))
      decreases Call(body, k), 0
    {
      var p := CallAsyncFunc(body, env);
      o := Execute(k, env.WithPromise(p), cur);
    }

    /** A call of an async function: create its promise and its generator, and run the generator. */
    method CallAsyncFunc(body: Script, env: Env) returns (p: nat)
      requires Valid() && EnvOk(env, |cells|) && Scoped(body, |env.proms|, true)
      modifies this, cells
      ensures Valid() && Kept() && p == |old(cells)|
      ensures Abs() == CallAsync(old(Abs()), env, body)
      decreases body, 2
    {
      p := Allocate(AsyncOf(env, body));
      var g := StartGenerator(p);
      var o := Execute(body, env, g);
      Complete(g, p, o);
    }

    // ---------------------------------------------------------------------------------------------
    // Calling back
    // ---------------------------------------------------------------------------------------------

    /** `gen.next(&value)` or `gen._throw(error)` from an awaited promise. */
    method ResumeGenerator(g: nat, arg: Settled) returns (o: Outcome)
      requires Valid() && g < |gens| && FrameOk(gens[g], |cells|)
      modifies this, cells
      ensures Valid() && Kept()
      ensures (Abs(), o) == RunResume(Switch(old(Abs()), Resume(g)), g, old(gens)[g].status, arg)
    {
      var p := gens[g].owner;
      match gens[g].status
      case SUSPENDED(env, kv, ke, _, _, _) =>
        SetStatus(g, RUNNING);
        var r := Execute(if arg.Resolved? then kv else ke, env.WithArg(arg), g);
        Complete(g, p, r);
        o := Returned(Blank);
      case DONE => o := if arg.Rejected? then Threw(arg.error) else Returned(Blank);
      case RUNNING => o := Threw(AlreadyRunning);
    }

    method InvokeHandler(h: Handler, arg: Settled) returns (o: Outcome)
      requires Valid() && HandlerOk(h, Abs()) && (h.Resume? ==> FrameOk(gens[h.gen], |cells|))
      modifies this, cells
      ensures Valid() && Kept()
      ensures (Abs(), o) == RunHandler(Switch(old(Abs()), h), h, StatusOf(old(Abs()), h), arg)
    {
      match h
      case Closure(_, env, body) => o := Execute(body, env.WithArg(arg), -1);
      case Resume(g) => o := ResumeGenerator(g, arg);
    }

    /** The helper's inner promise, associated with the promise that `then`/`_catch` returned. */
    method FulfillChild(child: nat, isVoid: bool, o: Outcome)
      requires Valid() && child < |cells| && !o.Suspended? && (o.ReturnedPromise? ==> o.p < |cells|)
      modifies this, cells
      ensures Valid() && Kept() && Abs() == Conclude(old(Abs()), child, isVoid, o)
    {
      var inner: nat;
      match o {
        case Returned(v) => inner := NewSettledPromise(isVoid, Resolved(v));
        case ReturnedPromise(q) => inner := q;
        case Threw(e) => inner := NewSettledPromise(isVoid, Rejected(e));
      }
      AssociateStatus(child, inner);
    }

    /** Objects are only added, and the queue's cursor is where it was. */
    twostate predicate InPass()
      reads this
    {
      && Extended()
      && old(pendingCallbackQueue) <= pendingCallbackQueue
      && queueDone == old(queueDone)
    }

    ghost method PassWrapper()
      requires Valid() && QueueInv(Abs()) && Abs().queue != [] && Head(Abs()) != []
      modifies this`wrappersDone
      ensures Valid() && InPass() && wrappersDone == old(wrappersDone) + 1
      ensures Abs() == Advance(old(Abs()), old(Abs()).queue[0])
    {
      var st, p := Abs(), Current();
      assert p == st.queue[0];
      var ws := cells[p].List(Way(cells[p].Fate()));
      assert Head(st) == ws[wrappersDone..];
      wrappersDone := wrappersDone + 1;
      assert ws[wrappersDone..] == Head(st)[1..];
      assert Abs().cells == Advance(st, p).cells;
    }

    /** Move past the handler at the cursor and log its start. */
    ghost method StartHandler(h: Handler, child: nat)
      requires Valid() && CanBegin(Abs(), h, child)
      modifies this`wrappersDone, this`log
      ensures Valid() && wrappersDone == old(wrappersDone) + 1
      ensures |Abs().cells| == |old(Abs()).cells| && HandlerOk(h, Abs())
      ensures Switch(Abs(), h) == Begin(old(Abs()), h, child) && StatusOf(Abs(), h) == StatusOf(old(Abs()), h)
    {
      var st, p := Abs(), Current();
      PassWrapper();
      log := log + [Entry(p, child, st.cells[p].fate)];
      assert Abs().cells == Advance(st, p).cells;
    }

    /** Run a handler that has been started, and give `child` its result. */
    method InvokeAndFulfill(h: Handler, child: nat, arg: Settled)
      requires Valid() && HandlerOk(h, Abs()) && (h.Resume? ==> FrameOk(gens[h.gen], |cells|)) && child < |cells|
      requires !RunHandler(Switch(Abs(), h), h, StatusOf(Abs(), h), arg).1.Suspended?
      modifies this, cells
      ensures Valid() && Kept()
      ensures var r := RunHandler(Switch(old(Abs()), h), h, StatusOf(old(Abs()), h), arg);
              child < |r.0.cells| && Abs() == Conclude(r.0, child, IsVoid(h), r.1)
    {
      var o := InvokeHandler(h, arg);
      FulfillChild(child, IsVoid(h), o);
    }

    /** Call the handler at the cursor, a closure of `then` or `_catch`. */
    method CallHandlerWrapper(h: Handler, child: nat, arg: Settled)
      requires Valid() && CanBegin(Abs(), h, child) && child < |cells| && Idle(Abs())
      requires arg == Abs().cells[Abs().queue[0]].fate
      modifies this, cells
      ensures Valid() && InPass() && wrappersDone == old(wrappersDone) + 1
      ensures Abs() == CallHandler(old(Abs()), h, child)
    {
      HeadOutcome(Abs(), h, child);
      StartHandler(h, child);
      InvokeAndFulfill(h, child, arg);
    }

    /** Call the wrapper at the cursor. */
    method CallWrapper(p: nat, w: Wrapper, arg: Settled)
      requires Valid() && Ready(Abs()) && Abs().queue != [] && Head(Abs()) != []
      requires p == Abs().queue[0] && w == Head(Abs())[0] && arg == Abs().cells[p].fate
      modifies this, cells
      ensures Valid() && InPass() && wrappersDone == old(wrappersDone) + 1
      ensures Abs() == Step(old(Abs()))
    {
      ghost var st := Abs();
      match w
      case Adopt(outer) =>
        assert ListOk(st, p, Way(arg)) && WrapperOk(st, p, Way(arg), Head(st)[0]);
        PassWrapper();
        match arg {
          case Resolved(v) => ResolveImpl(outer, v);
          case Rejected(e) => RejectImpl(outer, e);
        }
      case Handle(h, child) =>
        NextHandlerReady(st);
        CallHandlerWrapper(h, child, arg);
    }

    /** The end of `call_back`. */
    method ClearWrappers(p: nat)
      requires Valid() && QueueInv(Abs()) && Abs().queue != [] && p == Abs().queue[0]
      modifies this`queueDone, this`wrappersDone, cells[p]
      ensures Valid() && queueDone == old(queueDone) + 1 && wrappersDone == 0
      ensures Abs() == Close(old(Abs()))
    {
      ghost var st := Abs();
      var data := cells[p];
      data.pendingCallback := false;
      data.fulfilledWrappers := [];
      data.rejectedWrappers := [];
      wrappersDone := 0;
      queueDone := queueDone + 1;
      assert pendingCallbackQueue[queueDone..] == st.queue[1..];
      forall i | 0 <= i < |cells| && i != p ensures Abs().cells[i] == st.cells[i] {
        assert cells[i].View() == old(cells[i].View());
      }
      assert Abs().cells == Close(st).cells;
    }

    /** One turn of the loop of `call_back`. */
    method CallNext(p: nat, w: Wrapper, arg: Settled, ghost start: State, ghost end: State)
      requires Valid() && Calling(start, Abs(), p, end) && p < |cells| && arg == cells[p].Fate()
      requires wrappersDone < |cells[p].List(Way(arg))| && w == cells[p].List(Way(arg))[wrappersDone]
      modifies this, cells
      ensures Valid() && InPass() && Calling(start, Abs(), p, end) && wrappersDone == old(wrappersDone) + 1
      ensures cells[p].Fate() == arg && Total(Abs()) < Total(old(Abs()))
    {
      assert Head(Abs()) == cells[p].List(Way(arg))[wrappersDone..];
      HandlerStep(start, Abs(), p, end);
      CallWrapper(p, w, arg);
      assert Abs().cells[p].fate == arg;
    }

    /** The loop of `call_back`: call every wrapper of the list that the status selects, those appended on
        the way included. */
    method CallWrappers(p: nat, ghost end: State)
      requires Valid() && Calling(Abs(), Abs(), p, end) && wrappersDone == 0
      modifies this, cells
      ensures Valid() && Extended() && queueDone == old(queueDone)
      ensures Calling(old(Abs()), Abs(), p, end) && Head(Abs()) == []
    {
      ghost var start := Abs();
      assert p == Current() && !start.cells[p].fate.Pending?;
      var data := cells[p];
      var arg: Settled := data.Fate();
      var i := 0;
      while i < |data.List(Way(arg))|
        invariant Valid() && Extended() && queueDone == old(queueDone) && Calling(start, Abs(), p, end)
        invariant p < |cells| && data == cells[p] && data.Fate() == arg
        invariant i == wrappersDone <= |data.List(Way(arg))|
        decreases Total(Abs())
      {
        CallNext(p, data.List(Way(arg))[i], arg, start, end);
        i := i + 1;
      }
    }

    /** `call_back`: call the wrappers, then forget both lists. */
    method CallBack(p: nat, ghost end: State)
      requires Valid() && Calling(Abs(), Abs(), p, end) && wrappersDone == 0
      modifies this, cells
      ensures Valid() && queueDone == old(queueDone) + 1 && wrappersDone == 0
      ensures Extended() && CalledBack(old(Abs()), Abs(), end)
    {
      CallWrappers(p, end);
      CloseStep(old(Abs()), Abs(), p, end);
      ClearWrappers(p);
    }

    /** `promise_task`: call back every entry of the queue, those appended on the way included, then clear
        it.  Not to be entered from a callback. */
    method PromiseTask()
      requires Valid() && Ready(Abs()) && queueDone == 0 && wrappersDone == 0
      modifies this, cells
      ensures Valid() && Abs() == Drain(old(Abs())) && queueDone == 0 && wrappersDone == 0
      ensures pendingCallbackQueue == []
      ensures Extended()
    {
      ghost var end := Drain(Abs());
      var i := 0;
      while i < |pendingCallbackQueue|
        invariant Valid() && Extended() && i == queueDone <= |pendingCallbackQueue| && wrappersDone == 0
        invariant Ready(Abs()) && Drain(Abs()) == end
        decreases Total(Abs()), |pendingCallbackQueue| - i
      {
        CallBack(pendingCallbackQueue[i], end);
        i := i + 1;
      }
      ClearQueue();
    }

    method ClearQueue()
      requires Valid() && queueDone == |pendingCallbackQueue| && wrappersDone == 0
      modifies this`pendingCallbackQueue, this`queueDone
      ensures Valid() && Abs() == old(Abs()) && queueDone == 0 && pendingCallbackQueue == []
    {
      pendingCallbackQueue := [];
      queueDone := 0;
      assert Abs().cells == old(Abs()).cells;
    }

    // ---------------------------------------------------------------------------------------------
    // The task loop
    // ---------------------------------------------------------------------------------------------

    /** `TaskLoop::add`. */
    method Add(t: Task)
      requires Valid()
      modifies this`permanentQueue
      ensures Valid() && permanentQueue == old(permanentQueue) + [t]
      ensures Abs() == old(Abs()).(permanents := old(permanentQueue) + [t])
    {
      permanentQueue := permanentQueue + [t];
      assert Views() == old(Views());
    }

    /** `TaskLoop::oneshot`. */
    method AddOneshot(h: Handler)
      requires Valid()
      modifies this`oneshots
      ensures Valid() && Kept() && Abs() == old(Abs()).(oneshots := old(oneshots) + [h])
    {
      oneshots := oneshots + [h];
      assert Views() == old(Views());
    }

    method PerformTask(t: Task) returns (threw: bool)
      requires Valid() && Ready(Abs()) && TaskOk(t, Abs()) && queueDone == 0 && wrappersDone == 0
      modifies this, cells
      ensures Valid() && Extended() && queueDone == 0 && wrappersDone == 0
      ensures (Abs(), threw) == RunTask(t, old(Abs()))
    {
      match t
      case RunPromiseTask =>
        PromiseTask();
        threw := false;
      case RunCode(env, body) =>
        var o := Execute(body, env, -1);
        threw := o.Threw?;
    }

    method PerformPermanent(i: nat) returns (threw: bool)
      requires Valid() && Ready(Abs()) && i < |permanentQueue| && queueDone == 0 && wrappersDone == 0
      modifies this, cells
      ensures Valid() && Extended() && queueDone == 0 && wrappersDone == 0
      ensures (Abs(), threw) == RunPermanent(old(Abs()), i)
    {
      PermanentOk(Abs(), i);
      threw := PerformTask(permanentQueue[i]);
    }

    /** The first loop of `run_once`, over a queue that its tasks push onto. */
    method PerformPermanents() returns (threw: bool)
      requires Valid() && Ready(Abs()) && queueDone == 0 && wrappersDone == 0
      modifies this, cells
      ensures Valid() && Extended() && queueDone == 0 && wrappersDone == 0
      ensures (Abs(), threw) == RunPermanents(old(Abs()), 0)
    {
      threw := false;
      var i := 0;
      while i < |permanentQueue|
        invariant Valid() && Extended() && queueDone == 0 && wrappersDone == 0
        invariant i <= |permanentQueue| && Ready(Abs())
        invariant RunPermanents(Abs(), i) == RunPermanents(old(Abs()), 0)
        decreases RestPermanents(Abs(), i)
      {
        PermanentTurn(Abs(), i);
        threw := PerformPermanent(i);
        if threw { return; }
        i := i + 1;
      }
    }

    method PerformOneshot(i: nat) returns (threw: bool)
      requires Valid() && Ready(Abs()) && i < |oneshots| && queueDone == 0 && wrappersDone == 0
      modifies this, cells
      ensures Valid() && Extended() && queueDone == 0 && wrappersDone == 0
      ensures (Abs(), threw) == RunOneshot(old(Abs()), i)
    {
      OneshotOk(Abs(), i);
      var o := Execute(oneshots[i].body, oneshots[i].env, -1);
      threw := o.Threw?;
    }

    /** The second loop of `run_once`, over a queue that its tasks push onto. */
    method PerformOneshots() returns (threw: bool, ghost ran: seq<Handler>)
      requires Valid() && Ready(Abs()) && queueDone == 0 && wrappersDone == 0
      modifies this, cells
      ensures Valid() && Extended() && queueDone == 0 && wrappersDone == 0
      ensures Pass(Abs(), ran, threw) == RunOneshots(old(Abs()), 0)
    {
      threw, ran := false, [];
      var i := 0;
      while i < |oneshots|
        invariant Valid() && Extended() && Ready(Abs()) && queueDone == 0 && wrappersDone == 0
        invariant i <= |oneshots|
        invariant RunOneshots(old(Abs()), 0) == Preceded(ran, RunOneshots(Abs(), i))
        decreases Rest(Abs(), i)
      {
        OneshotTurn(old(Abs()), Abs(), i, ran);
        ran := ran + [oneshots[i]];
        threw := PerformOneshot(i);
        if threw { return; }
        i := i + 1;
      }
    }

    /** `run_once`. */
    method RunLoopOnce() returns (threw: bool, ghost ran: seq<Handler>)
      requires Valid() && Ready(Abs()) && queueDone == 0 && wrappersDone == 0
      modifies this, cells
      ensures Valid() && Extended() && queueDone == 0 && wrappersDone == 0
      ensures Pass(Abs(), ran, threw) == RunOnce(old(Abs()))
    {
      ran := [];
      RunOnceCases(Abs());
      threw := PerformPermanents();
      if threw { return; }
      threw, ran := PerformOneshots();
      if !threw { ClearOneshots(); }
    }

    method ClearOneshots()
      requires Valid()
      modifies this`oneshots
      ensures Valid() && Abs() == old(Abs()).(oneshots := [])
    {
      oneshots := [];
      assert Abs().cells == old(Abs()).cells;
    }
  }
}
