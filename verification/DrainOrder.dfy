/** The order of callbacks across promises: a drain calls the promises back in the order in which they were settled,
    each of them completely before the next. */
module DrainOrder {
  import opened Scripts
  import opened Promises
  import opened Invariant
  import opened Weights
  import opened Draining
  import opened Equations
  import opened Guarantees

  // -------------------------------------------------------------------------------------------
  // Code only ever adds to the end of the queue
  // -------------------------------------------------------------------------------------------

  /** A library call puts promise `p` into the queue: `resolved` or `rejected` of `Promise<void>`, a registration on a
      promise that has settled that way and does not wait already, or the first effective call on a root. */
  predicate Joins(op: Op, env: Env, st: State, p: nat)
    requires ScopedOp(op, |env.proms|) && EnvOk(env, |st.cells|)
  {
    match op
    case NewSettled(isVoid, _) => isVoid && p == |st.cells|
    case Chain(side, r, _, _) =>
      p == env.proms[r] && WentWay(st.cells[p].fate, side) && p !in st.queue
    case SettleWith(r, _) => p == env.proms[r] && st.cells[p].def.Root? && st.cells[p].fate.Pending?
    case Follow(r, q) =>
      && p == env.proms[r] && st.cells[p].def.Root? && st.cells[p].fate.Pending?
      && !st.cells[env.proms[q]].fate.Pending?
    case _ => false
  }

  /** Exactly that promise joins the end of the queue. */
  lemma JoinsIff(op: Op, env: Env, st: State, p: nat)
    requires QueueInv(st) && ScopedOp(op, |env.proms|) && EnvOk(env, |st.cells|)
    ensures var queue := LibraryCall(op, env, st).1.queue;
            && (Joins(op, env, st, p) <==> queue == st.queue + [p])
            && (queue != st.queue ==> exists q: nat :: Joins(op, env, st, q))
  {
    var queue := LibraryCall(op, env, st).1.queue;
    if queue == st.queue + [p] { assert queue[|st.queue|] == p; }
    if queue != st.queue {
      var q: nat := if op.NewSettled? then |st.cells| else env.proms[op.r];
      assert Joins(op, env, st, q);
    }
  }

  lemma LibraryQueue(op: Op, env: Env, st: State)
    requires ScopedOp(op, |env.proms|) && EnvOk(env, |st.cells|)
    ensures st.queue <= LibraryCall(op, env, st).1.queue
  {
  }

  lemma {:induction false} ExecQueue(s: Script, env: Env, cur: int, st: State)
    requires EnvOk(env, |st.cells|) && cur < |st.gens| && Scoped(s, |env.proms|, 0 <= cur)
    ensures st.queue <= Exec(s, env, cur, st).0.queue
    decreases s, 0
  {
    match s
    case If(t, a, b) => ExecQueue(if t(env.data) then a else b, env, cur, st);
    case Do(op, k) =>
      var r := LibraryCall(op, env, st);
      LibraryQueue(op, env, st);
      ExecQueue(k, r.0, cur, r.1);
    case Call(body, k) =>
      CallQueue(st, env, body);
      ExecQueue(k, env.WithPromise(|st.cells|), cur, CallAsync(st, env, body));
    case Await(_, _, _) =>
    case Return(_) =>
    case ReturnPromise(_) =>
    case Throw(_) =>
  }

  lemma {:induction false} CallQueue(st: State, env: Env, body: Script)
    requires EnvOk(env, |st.cells|) && Scoped(body, |env.proms|, true)
    ensures st.queue <= CallAsync(st, env, body).queue
    decreases body, 1
  {
    var st1 := StartAsync(st, env, body);
    ExecQueue(body, env, |st.gens|, st1);
    var r := Exec(body, env, |st.gens|, st1);
    FinishQueue(r.0, |st.gens|, |st.cells|, r.1);
  }

  lemma FinishQueue(st: State, g: nat, p: nat, o: Outcome)
    requires g < |st.gens| && p < |st.cells| && (o.ReturnedPromise? ==> o.p < |st.cells|)
    ensures st.queue <= FinishGen(st, g, p, o).queue
  {
  }

  lemma ConcludeQueue(st: State, child: nat, isVoid: bool, o: Outcome)
    requires child < |st.cells| && (o.ReturnedPromise? ==> o.p < |st.cells|)
    ensures st.queue <= Conclude(st, child, isVoid, o).queue
  {
  }

  lemma HandlerQueue(st: State, h: Handler, child: nat)
    requires CanBegin(st, h, child) && child < |st.cells| && Idle(st)
    ensures st.queue <= CallHandler(st, h, child).queue
  {
    var st1, arg, r := Begin(st, h, child), st.cells[st.queue[0]].fate, RunHead(st, h, child);
    BeginPassed(st, h, child);
    NextHandlerReady(st);
    HeadOutcome(st, h, child);
    match h {
      case Closure(_, env, body) => ExecQueue(body, env.WithArg(arg), -1, st1);
      case Resume(g) =>
        assert SuspendedOk(st, g);
        ResumeQueue(st1, g, st.gens[g].status, arg);
    }
    ConcludeQueue(r.0, child, IsVoid(h), r.1);
  }

  lemma ResumeQueue(st: State, g: nat, was: GenStatus, arg: Settled)
    requires g < |st.gens| && was.SUSPENDED? && FrameOk(Coroutine(st.gens[g].owner, was), |st.cells|)
    ensures st.queue <= RunResume(st, g, was, arg).0.queue
  {
    var s, env := if arg.Resolved? then was.onValue else was.onError, was.env.WithArg(arg);
    ExecQueue(s, env, g, st);
    var r := Exec(s, env, g, st);
    FinishQueue(r.0, g, st.gens[g].owner, r.1);
  }

  // -------------------------------------------------------------------------------------------
  // The promise at the head of the queue
  // -------------------------------------------------------------------------------------------

  /** What is new in the log are calls of handlers of promises in `ps`. */
  ghost predicate CallsOnly(a: State, b: State, ps: seq<nat>) {
    a.log <= b.log && forall i :: |a.log| <= i < |b.log| ==> b.log[i].promise in ps
  }

  /** A step that calls back a wrapper stays at the head promise. */
  lemma HeadStep(st: State)
    requires Ready(st) && st.queue != [] && Head(st) != []
    ensures st.queue <= Step(st).queue && CallsOnly(st, Step(st), [st.queue[0]])
  {
    var p := st.queue[0];
    match Head(st)[0]
    case Adopt(o) =>
      assert ListOk(st, p, Way(st.cells[p].fate)) && WrapperOk(st, p, Way(st.cells[p].fate), Head(st)[0]);
    case Handle(h, child) =>
      NextHandlerReady(st);
      HandlerQueue(st, h, child);
      CallHandlerInv(st, h, child);
  }

  /** The handler behind `c` is one that promise `p`, as it is settled, calls back. */
  predicate Listens(st: State, p: nat, c: nat) {
    && c < |st.cells| && p < |st.cells| && !st.cells[p].fate.Pending?
    && st.cells[c].def.Chained? && st.cells[c].def.parent == p && st.cells[c].def.side == Way(st.cells[p].fate)
  }

  /** From `a` the drain comes to `b` by calling back the promises `ps`, completely, and nothing else. */
  ghost predicate Serves(a: State, b: State, ps: seq<nat>) {
    && Ready(a) && Ready(b) && Drain(b) == Drain(a) && Evolves(a, b) && CallsOnly(a, b, ps)
    && forall p, c :: p in ps && Listens(a, p, c) ==> Entry(p, c, a.cells[p].fate) in b.log
  }

  lemma ServesAfter(a: State, m: State, b: State, p: nat)
    requires Ready(a) && Evolves(a, m) && CallsOnly(a, m, [p]) && Ready(m) && Drain(m) == Drain(a)
    requires Serves(m, b, [p])
    ensures Serves(a, b, [p])
  {
    EvolvesTrans(a, m, b);
    assert forall c :: Listens(a, p, c) ==> Listens(m, p, c);
  }

  /** At the end of `call_back` every handler of the promise has run. */
  lemma CloseServes(st: State)
    requires Ready(st) && st.queue != [] && Head(st) == []
    ensures Serves(st, Close(st), [st.queue[0]]) && Close(st).queue == st.queue[1..]
  {
    var p := st.queue[0];
    StepInv(st);
    CloseInv(st);
    forall c | Listens(st, p, c) ensures Entry(p, c, st.cells[p].fate) in Close(st).log { assert Accounted(st, c); }
  }

  lemma {:induction false} HeadFirst(st: State) returns (b: State)
    requires Ready(st) && st.queue != []
    ensures Serves(st, b, [st.queue[0]]) && st.queue[1..] <= b.queue
    decreases Total(st), |st.queue|
  {
    StepInv(st);
    if Head(st) == [] {
      b := Close(st);
      CloseServes(st);
    } else {
      HeadStep(st);
      HandlersConsume(st);
      b := HeadFirst(Step(st));
      ServesAfter(st, Step(st), b, st.queue[0]);
    }
  }

  // -------------------------------------------------------------------------------------------
  // One promise after the other
  // -------------------------------------------------------------------------------------------

  lemma ServesMore(a: State, m: State, b: State, ps: seq<nat>, p: nat)
    requires Ready(a) && Serves(a, m, ps) && Serves(m, b, [p])
    ensures Serves(a, b, ps + [p])
  {
    EvolvesTrans(a, m, b);
    forall q, c | q in ps + [p] && Listens(a, q, c) ensures Entry(q, c, a.cells[q].fate) in b.log {
      if q in ps { assert Entry(q, c, a.cells[q].fate) in m.log; } else { assert Listens(m, p, c); }
    }
    forall i | |a.log| <= i < |b.log| ensures b.log[i].promise in ps + [p] {
      if i < |m.log| { assert b.log[i] == m.log[i]; }
    }
  }

  /** A drain calls back the first `k` promises of the queue before it comes to any other. */
  lemma {:induction false} FirstServed(st: State, k: nat) returns (b: State)
    requires Ready(st) && k <= |st.queue|
    ensures Serves(st, b, st.queue[..k]) && st.queue[k..] <= b.queue
  {
    if k == 0 {
      b := st;
      assert st.queue[0..] == st.queue;
    } else {
      var m := FirstServed(st, k - 1);
      assert m.queue[0] == st.queue[k - 1];
      b := HeadFirst(m);
      ServesMore(st, m, b, st.queue[..k - 1], st.queue[k - 1]);
      assert st.queue[..k - 1] + [st.queue[k - 1]] == st.queue[..k];
      QueueRest(st.queue, m.queue, k);
    }
  }

  lemma QueueRest(q: seq<nat>, r: seq<nat>, k: nat)
    requires 0 < k <= |q| && q[k - 1..] <= r
    ensures r != [] && q[k..] <= r[1..]
  {
    assert q[k - 1..][1..] == q[k..];
  }

  /** While only other promises are called back, a handler that has not run has still not run. */
  lemma NotServed(a: State, b: State, ps: seq<nat>, e: Entry)
    requires CallsOnly(a, b, ps) && e.promise !in ps && e !in a.log
    ensures e !in b.log
  {
    forall i | 0 <= i < |b.log| ensures b.log[i] != e {
      if i < |a.log| { assert b.log[i] == a.log[i]; }
    }
  }

  lemma BehindPrefix(s: seq<Entry>, t: seq<Entry>, y: nat)
    requires s <= t && y < |t| && t[y] !in s
    ensures |s| <= y
  {
    if y < |s| { assert false; }
  }

  /** First settled, first served: of two promises that wait to be called back, all handlers of the one that was queued
      first run before any handler of the other one that has not run yet. */
  lemma SettledFirstServedFirst(st: State, j: nat, k: nat, c: nat, d: nat) returns (x: nat, y: nat)
    requires Ready(st) && j < k < |st.queue| && Listens(st, st.queue[j], c) && Listens(st, st.queue[k], d)
    requires Entry(st.queue[k], d, st.cells[st.queue[k]].fate) !in st.log
    ensures var log := Drain(st).log;
            && x < y < |log| && log[x] == Entry(st.queue[j], c, st.cells[st.queue[j]].fate)
            && log[y] == Entry(st.queue[k], d, st.cells[st.queue[k]].fate)
  {
    var p, q := st.queue[j], st.queue[k];
    var b := FirstServed(st, k);
    assert st.queue[..k][j] == p;
    x :| 0 <= x < |b.log| && b.log[x] == Entry(p, c, st.cells[p].fate);
    y := ServedAtLast(st, q, d);
    DrainInv(b);
    NotServed(st, b, st.queue[..k], Entry(q, d, st.cells[q].fate));
    BehindPrefix(b.log, Drain(b).log, y);
  }

  /** At the end of the drain the handler has run. */
  lemma ServedAtLast(st: State, q: nat, d: nat) returns (y: nat)
    requires Ready(st) && Listens(st, q, d)
    ensures y < |Drain(st).log| && Drain(st).log[y] == Entry(q, d, st.cells[q].fate)
  {
    DrainInv(st);
    LoggedWhenDrained(Drain(st), d);
    y :| 0 <= y < |Drain(st).log| && Drain(st).log[y] == Entry(q, d, st.cells[q].fate);
  }
}
