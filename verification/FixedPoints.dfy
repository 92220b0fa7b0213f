/** Every promise of a drained state has come out as its code does, every lawful one satisfies its equation,
    and nothing is settled beyond what the equations lead to. */
module FixedPoints {
  import opened Scripts
  import opened Promises
  import opened Invariant
  import opened Weights
  import opened Draining
  import opened Equations
  import opened Settling

  // -------------------------------------------------------------------------------------------
  // The drain
  // -------------------------------------------------------------------------------------------

  lemma PassedMeaningful(a: State, b: State)
    requires Meaningful(a) && Passed(a, b)
    requires forall g :: 0 <= g < |a.gens| ==> b.gens[g] == a.gens[g] || !b.gens[g].status.SUSPENDED?
    ensures Meaningful(b)
  {
    SameFates(a, b);
    forall q, side, i | 0 <= q < |b.cells| && 0 <= i < |b.cells[q].List(side)|
      ensures LinkOk(b, q, b.cells[q].List(side)[i])
    {
      var us, ws := a.cells[q].List(side), b.cells[q].List(side);
      assert LeftOf(us, ws);
      assert LinkOk(a, q, us[|us| - |ws| + i]);
      LaterLink(a, b, q, ws[i]);
    }
    forall g | 0 <= g < |b.gens| ensures GenOk(b, g) {
      LaterGen(a, b, g);
    }
  }

  /** The one whom the wrapper at the cursor serves. */
  function Client(w: Wrapper): nat {
    match w
    case Adopt(o) => o
    case Handle(_, c) => c
  }

  lemma AdvanceWaits(st: State, b: State, c: nat)
    requires QueueInv(st) && st.queue != [] && Head(st) != []
    requires b.cells == Advance(st, st.queue[0]).cells && Passed(st, b)
    requires forall g :: 0 <= g < |st.gens| && !st.gens[g].status.DONE? ==> !b.gens[g].status.DONE?
    requires c < |st.cells| && Waits(st, c) && c != Client(Head(st)[0])
    ensures Waits(b, c)
  {
    if q: nat :| Linked(st, q, c) {
      forall side | Fireable(b, q, side) ensures Adopt(c) in b.cells[q].List(side) {
        assert Fireable(st, q, side);
        AdvanceKeeps(st, q, side, Adopt(c));
      }
      assert Linked(b, q, c);
    } else {
      match st.cells[c].def
      case Chained(side, p, h) =>
        if Fireable(b, p, side) { AdvanceKeeps(st, p, side, Handle(h, c)); }
      case AsyncOf(_, _) =>
        var g :| 0 <= g < |st.gens| && st.gens[g].owner == c && !st.gens[g].status.DONE?;
        assert b.gens[g].owner == c;
      case _ =>
    }
  }

  lemma AdvanceSolving(st: State, b: State)
    requires QueueInv(st) && st.queue != [] && Head(st) != [] && Solving(st, {})
    requires b.cells == Advance(st, st.queue[0]).cells && Passed(st, b)
    requires forall g :: 0 <= g < |st.gens| ==>
               b.gens[g] == st.gens[g] || (!b.gens[g].status.SUSPENDED? && !b.gens[g].status.DONE?)
    ensures Solving(b, {Client(Head(st)[0])})
  {
    PassedMeaningful(st, b);
    forall c | 0 <= c < |b.cells| && c != Client(Head(st)[0]) && Single(b.cells[c]) && b.cells[c].fate.Pending?
      ensures Waits(b, c)
    {
      AdvanceWaits(st, b, c);
    }
  }

  lemma AdoptStepSolving(st: State, o: nat)
    requires Inv(st) && st.queue != [] && Head(st) != [] && Head(st)[0] == Adopt(o) && Solving(st, {})
    requires o < |st.cells|
    ensures Solving(Settle(Advance(st, st.queue[0]), o, st.cells[st.queue[0]].fate), {})
  {
    var p := st.queue[0];
    var st1 := Advance(st, p);
    AdvancePassed(st);
    AdvanceSolving(st, st1);
    assert LinkOk(st, p, st.cells[p].List(Way(st.cells[p].fate))[0]);
    LaterLink(st, st1, p, Adopt(o));
    SettleSolving(st1, {o}, o, st.cells[p].fate);
    assert {o} - {o} == {};
  }

  lemma CloseSolving(st: State)
    requires Inv(st) && st.queue != [] && Head(st) == [] && Solving(st, {})
    ensures Solving(Close(st), {})
  {
    var st', p := Close(st), st.queue[0];
    ClosePassed(st);
    CloseInv(st);
    PassedMeaningful(st, st');
    forall c | 0 <= c < |st'.cells| && Single(st'.cells[c]) && st'.cells[c].fate.Pending? ensures Waits(st', c) {
      assert Waits(st, c);
      if q: nat :| Linked(st, q, c) {
        assert Fireable(st, p, Way(st.cells[p].fate));
        assert q != p;
        forall side | Fireable(st', q, side) ensures Adopt(c) in st'.cells[q].List(side) {
          assert Fireable(st, q, side);
        }
        assert Linked(st', q, c);
      } else if st.cells[c].def.AsyncOf? {
        var g :| 0 <= g < |st.gens| && st.gens[g].owner == c && !st.gens[g].status.DONE?;
        assert st'.gens[g].owner == c;
      } else if st.cells[c].def.Chained? {
        var q, side := st.cells[c].def.parent, st.cells[c].def.side;
        assert Fireable(st', q, side) ==> Fireable(st, q, side);
      }
    }
  }

  lemma ConcludeSolving(st: State, child: nat, isVoid: bool, x: Outcome)
    requires Inv(st) && Solving(st, {child}) && !x.Suspended? && (x.ReturnedPromise? ==> x.p < |st.cells|)
    requires child < |st.cells| && Ended(st.cells, FateOf(st), child, x)
    ensures Solving(Conclude(st, child, isVoid, x), {})
  {
    assert {child} - {child} == {};
    match x
    case Returned(v) => FreshInnerSolving(st, child, isVoid, Resolved(v), x);
    case ReturnedPromise(q) => AssociateSolving(st, {child}, child, q);
    case Threw(e) => FreshInnerSolving(st, child, isVoid, Rejected(e), x);
  }

  lemma FreshInnerSolving(st: State, child: nat, isVoid: bool, f: Settled, x: Outcome)
    requires Inv(st) && Solving(st, {child}) && child < |st.cells|
    requires Ended(st.cells, FateOf(st), child, x) && x == OutcomeOf(f)
    ensures Solving(Associate(AllocSettled(st, isVoid, f), child, |st.cells|), {})
  {
    var st1 := AllocSettled(st, isVoid, f);
    AllocSettledInv(st, isVoid, f);
    AllocSettledSolving(st, {child}, isVoid, f);
    StaysEnded(st, st1, child, x);
    assert {child} - {child} == {};
    SettleSolving(st1, {child}, child, f);
  }

  /** A handler has begun. */
  lemma HandlerServing(st: State, child: nat, p: nat, h: Handler, arg: Settled)
    requires child < |st.cells| && p < |st.cells| && st.cells[p].fate == arg && h.Closure?
    requires st.cells[child].def == Chained(Way(arg), p, h)
    ensures At(st.cells, FateOf(st), child, h.body, h.env.WithArg(arg))
  {
    assert MadeAfter([], child, |st.cells|);
    assert Reaches(st.cells, FateOf(st), h.body, h.env.WithArg(arg), [], h.body, h.env.WithArg(arg));
  }

  /** The promise at hand has been called back with what it has; `r` is what the handler has done. */
  ghost predicate Handled(r: (State, Outcome), child: nat) {
    && Inv(r.0) && Solving(r.0, {child}) && !r.1.Suspended? && child < |r.0.cells|
    && Ended(r.0.cells, FateOf(r.0), child, r.1)
  }

  lemma ClosureSolving(st: State, h: Handler, child: nat)
    requires CanBegin(st, h, child) && child < |st.cells| && Idle(st) && Solving(st, {}) && h.Closure?
    ensures Handled(RunHead(st, h, child), child)
  {
    var st1, p := Begin(st, h, child), st.queue[0];
    var arg := st.cells[p].fate;
    BeginPassed(st, h, child);
    BeginInv(st, h, child);
    NextHandlerReady(st);
    AdvanceSolving(st, st1);
    HandlerServing(st1, child, p, h, arg);
    RunHeadInv(st, h, child);
    ExecSolving(h.body, h.env.WithArg(arg), -1, st1, {child}, child);
  }

  /** The awaited promise is settled: the async function goes on with the rest of its body. */
  lemma ResumeServing(st: State, o: nat, p: nat, kv: Script, ke: Script, env: Env, arg: Settled)
    requires AtAwait(st.cells, FateOf(st), o, p, kv, ke, env) && p < |st.cells| && st.cells[p].fate == arg
    ensures At(st.cells, FateOf(st), o, if arg.Resolved? then kv else ke, env.WithArg(arg))
  {
    var r: nat :| r < |env.proms| && env.proms[r] == p && At(st.cells, FateOf(st), o, Await(r, kv, ke), env);
    var s, e := if arg.Resolved? then kv else ke, env.WithArg(arg);
    assert Reaches(st.cells, FateOf(st), s, e, [], s, e);
    StepsTo(st, st, o, Await(r, kv, ke), env, [], s, e);
  }

  /** Running the rest of an async body up to its next await or its end. */
  lemma RestSolving(st: State, busy: set<nat>, g: nat, s: Script, env: Env)
    requires Inv(st) && Solving(st, busy) && g < |st.gens| && EnvOk(env, |st.cells|) && Scoped(s, |env.proms|, true)
    requires Serving(st, st.gens[g].owner, g, s, env)
    ensures var r := Exec(s, env, g, st);
            Solving(FinishGen(r.0, g, st.gens[g].owner, r.1), busy)
  {
    ExecInv(s, env, g, st);
    ExecSolving(s, env, g, st, busy, st.gens[g].owner);
    var r := Exec(s, env, g, st);
    if !r.1.Suspended? { FinishSolving(r.0, busy, g, r.1); }
  }

  lemma ResumeSolving(st: State, h: Handler, child: nat)
    requires CanBegin(st, h, child) && child < |st.cells| && Idle(st) && Solving(st, {}) && h.Resume?
    ensures Handled(RunHead(st, h, child), child)
  {
    var st1, p, g := Begin(st, h, child), st.queue[0], h.gen;
    var was, arg := st.gens[g].status, st.cells[p].fate;
    BeginPassed(st, h, child);
    BeginInv(st, h, child);
    NextHandlerReady(st);
    AdvanceSolving(st, st1);
    RunHeadInv(st, h, child);
    AwaitedServing(st, st1, g, arg);
    FrameRest(st, g, arg);
    RestSolving(st1, {child}, g, if arg.Resolved? then was.onValue else was.onError, was.env.WithArg(arg));
    CallbackEnded(RunHead(st, h, child).0, child, p, h, arg);
  }

  lemma FrameRest(st: State, g: nat, arg: Settled)
    requires Inv(st) && g < |st.gens| && st.gens[g].status.SUSPENDED?
    ensures var was := st.gens[g].status;
            && EnvOk(was.env.WithArg(arg), |st.cells|)
            && Scoped(if arg.Resolved? then was.onValue else was.onError, |was.env.proms|, true)
  {
    assert SuspendedOk(st, g);
  }

  /** The promise of a callback that resumes an async function comes out blank. */
  lemma CallbackEnded(st: State, child: nat, p: nat, h: Handler, arg: Settled)
    requires child < |st.cells| && p < |st.cells| && st.cells[p].fate == arg && h.Resume?
    requires st.cells[child].def == Chained(Way(arg), p, h)
    ensures Ended(st.cells, FateOf(st), child, Returned(Blank))
  {
  }

  /** Generator `g`, which `b` has switched to, serves its promise with the rest of its body. */
  lemma AwaitedServing(a: State, b: State, g: nat, arg: Settled)
    requires g < |a.gens| && Solving(a, {}) && a.gens[g].status.SUSPENDED? && Evolves(a, b)
    requires g < |b.gens| && b.gens[g].status.RUNNING?
    requires a.gens[g].status.awaited < |b.cells| && b.cells[a.gens[g].status.awaited].fate == arg
    ensures var was := a.gens[g].status;
            Serving(b, b.gens[g].owner, g, if arg.Resolved? then was.onValue else was.onError, was.env.WithArg(arg))
  {
    var was, o := a.gens[g].status, a.gens[g].owner;
    assert GenOk(a, g);
    StaysAtAwait(a, b, o, was.awaited, was.onValue, was.onError, was.env);
    ResumeServing(b, o, was.awaited, was.onValue, was.onError, was.env, arg);
  }

  lemma StepSolving(st: State)
    requires Ready(st) && st.queue != [] && Solving(st, {})
    ensures Solving(Step(st), {})
  {
    var p := st.queue[0];
    if Head(st) == [] {
      CloseSolving(st);
    } else {
      match Head(st)[0]
      case Adopt(o) =>
        assert ListOk(st, p, Way(st.cells[p].fate)) && WrapperOk(st, p, Way(st.cells[p].fate), Head(st)[0]);
        AdoptStepSolving(st, o);
      case Handle(h, child) =>
        NextHandlerReady(st);
        if h.Closure? { ClosureSolving(st, h, child); } else { ResumeSolving(st, h, child); }
        RunHeadInv(st, h, child);
        var r := RunHead(st, h, child);
        ConcludeSolving(r.0, child, IsVoid(h), r.1);
    }
  }

  lemma {:induction false} DrainSolving(st: State)
    requires Ready(st) && Solving(st, {})
    ensures Ready(Drain(st)) && Solving(Drain(st), {}) && Drain(st).queue == []
    decreases Total(st), |st.queue|
  {
    if st.queue != [] {
      StepInv(st);
      StepSolving(st);
      DrainSolving(Step(st));
    }
  }

  // -------------------------------------------------------------------------------------------
  // Drained states
  // -------------------------------------------------------------------------------------------

  ghost predicate Drained(st: State) {
    Ready(st) && Solving(st, {}) && st.queue == []
  }

  /** With nothing left to call back, whatever is linked follows a pending promise. */
  lemma LinkedPending(st: State, q: nat, c: nat)
    requires Drained(st) && Linked(st, q, c)
    ensures st.cells[q].fate.Pending? && LinkOk(st, q, Adopt(c))
  {
    if !st.cells[q].fate.Pending? {
      assert !st.cells[q].pendingCallback && Fireable(st, q, Way(st.cells[q].fate));
      assert false;
    }
    assert Fireable(st, q, OnValue);
    var i :| 0 <= i < |st.cells[q].List(OnValue)| && st.cells[q].List(OnValue)[i] == Adopt(c);
    assert LinkOk(st, q, st.cells[q].List(OnValue)[i]);
  }

  /** ... and every async function that is not done awaits a pending promise. */
  lemma SuspendedPending(st: State, g: nat)
    requires Drained(st) && g < |st.gens| && !st.gens[g].status.DONE?
    ensures var s := st.gens[g].status;
            && s.SUSPENDED? && s.awaited < |st.cells| && st.cells[s.awaited].fate.Pending?
  {
    var s := st.gens[g].status;
    assert s.SUSPENDED?;
    assert SuspendedOk(st, g) && Accounted(st, s.nextChild) && Accounted(st, s.throwChild);
    if !st.cells[s.awaited].fate.Pending? { assert false; }
  }

  /** A promise that is pending has nothing that could settle it, or has ended with a pending promise. */
  lemma QuiescentPending(st: State, c: nat)
    requires Drained(st) && c < |st.cells| && Single(st.cells[c]) && st.cells[c].fate.Pending?
    ensures Halted(st.cells, FateOf(st), c)
            || exists q :: Ended(st.cells, FateOf(st), c, ReturnedPromise(q)) && FateOf(st)(q).Pending?
  {
    assert Waits(st, c);
    if q: nat :| Linked(st, q, c) {
      LinkedPending(st, q, c);
    } else if st.cells[c].def.AsyncOf? {
      var g :| 0 <= g < |st.gens| && st.gens[g].owner == c && !st.gens[g].status.DONE?;
      SuspendedPending(st, g);
      assert GenOk(st, g);
    } else if st.cells[c].def.Chained? {
      var p := st.cells[c].def.parent;
      assert !st.cells[p].fate.Pending? ==> !st.cells[p].pendingCallback;
    }
  }

  /** After a drain every promise has come out as its code does, whatever code that is: a root on which at most
      one call was made, and any other promise. */
  lemma DrainedOutcome(st: State, c: nat)
    requires Drained(st) && c < |st.cells| && Single(st.cells[c])
    ensures ComesTo(st.cells, FateOf(st), c, st.cells[c].fate)
  {
    if st.cells[c].fate.Pending? {
      QuiescentPending(st, c);
      if q :| Ended(st.cells, FateOf(st), c, ReturnedPromise(q)) && FateOf(st)(q).Pending? {
        assert OutcomeFate(ReturnedPromise(q), FateOf(st)) == st.cells[c].fate;
      }
    } else {
      assert Due(st, c, st.cells[c].fate);
    }
  }

  // -------------------------------------------------------------------------------------------
  // Drained states and equations
  // -------------------------------------------------------------------------------------------

  /** Every promise has come out as its code does. */
  ghost predicate CameOut(cells: seq<Cell>, F: Fates) {
    forall c :: 0 <= c < |cells| && Single(cells[c]) ==> ComesTo(cells, F, c, F(c))
  }

  /** A promise that code has made is what direct-style evaluation of the call says. */
  lemma {:induction false} MadeIs(cells: seq<Cell>, F: Fates, c: nat, op: Op, env: Env)
    requires CameOut(cells, F) && RootlessOp(op) && c < |cells| && MadeBy(cells[c].def, op, env)
    ensures F(c) == DenoteOp(op, env.data, Seen(env, F))[0]
    decreases op, 4
  {
    if op.Chain? { CellIs(cells, F, c, op.body); } else { assert ComesTo(cells, F, c, F(c)); }
  }

  /** A promise whose code makes no root satisfies its equation. */
  lemma {:induction false} CellIs(cells: seq<Cell>, F: Fates, c: nat, s: Script)
    requires CameOut(cells, F) && Rootless(s) && c < |cells|
    requires cells[c].def.AsyncOf? || (cells[c].def.Chained? && cells[c].def.handler.Closure?)
    requires CodeOf(cells[c]) == s
    ensures F(c) == CellRhs(cells[c], F)
    decreases s, 3
  {
    assert ComesTo(cells, F, c, F(c));
    if x :| Ended(cells, F, c, x) && F(c) == OutcomeFate(x, F) {
      EndedIs(cells, F, c, s, x);
    } else if cells[c].def.AsyncOf? {
      var p, kv, ke, env :| AtAwait(cells, F, c, p, kv, ke, env) && F(p).Pending?;
      HaltedIs(cells, F, c, s, p, kv, ke, env);
    }
  }

  lemma {:induction false} EndedIs(cells: seq<Cell>, F: Fates, c: nat, s: Script, x: Outcome)
    requires CameOut(cells, F) && Rootless(s) && c < |cells|
    requires cells[c].def.AsyncOf? || (cells[c].def.Chained? && cells[c].def.handler.Closure?)
    requires CodeOf(cells[c]) == s && Ended(cells, F, c, x)
    ensures OutcomeFate(x, F) == CellRhs(cells[c], F)
    decreases s, 2
  {
    var t, env :| At(cells, F, c, t, env) && IsEnd(t, |env.proms|) && x == EndOf(t, env);
    AtIs(cells, F, c, s, t, env);
    EndMeans(t, env, F);
  }

  lemma EndMeans(s: Script, env: Env, F: Fates)
    requires IsEnd(s, |env.proms|)
    ensures Denote(s, env.data, Seen(env, F)) == OutcomeFate(EndOf(s, env), F)
  {
  }

  lemma {:induction false} HaltedIs(cells: seq<Cell>, F: Fates, c: nat, s: Script, p: nat, kv: Script, ke: Script,
                                    env: Env)
    requires CameOut(cells, F) && Rootless(s) && c < |cells| && cells[c].def.AsyncOf?
    requires CodeOf(cells[c]) == s && AtAwait(cells, F, c, p, kv, ke, env) && F(p).Pending?
    ensures CellRhs(cells[c], F) == Pending
    decreases s, 2
  {
    var r: nat :| r < |env.proms| && env.proms[r] == p && At(cells, F, c, Await(r, kv, ke), env);
    AtIs(cells, F, c, s, Await(r, kv, ke), env);
    AwaitPending(r, kv, ke, env, F);
  }

  lemma AwaitPending(r: nat, kv: Script, ke: Script, env: Env, F: Fates)
    requires r < |env.proms| && F(env.proms[r]).Pending?
    ensures Denote(Await(r, kv, ke), env.data, Seen(env, F)) == Pending
  {
    assert Seen(env, F)[r] == F(env.proms[r]);
  }

  /** What is left of a promise's code means what its equation says. */
  lemma {:induction false} AtIs(cells: seq<Cell>, F: Fates, c: nat, s: Script, t: Script, env: Env)
    requires CameOut(cells, F) && Rootless(s) && c < |cells|
    requires cells[c].def.AsyncOf? || (cells[c].def.Chained? && cells[c].def.handler.Closure?)
    requires CodeOf(cells[c]) == s && At(cells, F, c, t, env)
    ensures Denote(t, env.data, Seen(env, F)) == CellRhs(cells[c], F)
    decreases s, 1
  {
    var hs :| MadeAfter(hs, c, |cells|) && Reaches(cells, F, s, StartOf(cells[c], F), hs, t, env);
    ReachesIs(cells, F, s, StartOf(cells[c], F), hs, t, env);
    StartSeen(cells[c], F);
  }

  lemma {:induction false} ReachesIs(cells: seq<Cell>, F: Fates, s0: Script, env0: Env, hs: seq<nat>, s: Script,
                                     env: Env)
    requires CameOut(cells, F) && Rootless(s0) && Reaches(cells, F, s0, env0, hs, s, env)
    ensures Denote(s, env.data, Seen(env, F)) == Denote(s0, env0.data, Seen(env0, F))
    decreases s0, 0
  {
    if !(hs == [] && s0 == s && env0 == env) {
      match s0
      case If(t, a, b) => ReachesIs(cells, F, if t(env0.data) then a else b, env0, hs, s, env);
      case Await(r, kv, ke) =>
        var f := F(env0.proms[r]);
        SeenArg(env0, f, F);
        ReachesIs(cells, F, if f.Resolved? then kv else ke, env0.WithArg(f), hs, s, env);
      case Do(op, k) =>
        if Binds(op) == 0 {
          assert Seen(env0, F) + DenoteOp(op, env0.data, Seen(env0, F)) == Seen(env0, F);
          ReachesIs(cells, F, k, env0, hs, s, env);
        } else {
          MadeIs(cells, F, hs[0], op, env0);
          SeenWith(env0, hs[0], F);
          assert DenoteOp(op, env0.data, Seen(env0, F)) == [F(hs[0])];
          ReachesIs(cells, F, k, env0.WithPromise(hs[0]), hs[1..], s, env);
        }
      case Call(body, k) =>
        CellIs(cells, F, hs[0], body);
        SeenWith(env0, hs[0], F);
        ReachesIs(cells, F, k, env0.WithPromise(hs[0]), hs[1..], s, env);
    }
  }

  /** Where every promise has come out as its code does, every lawful one satisfies its equation. */
  lemma CameOutEquation(cells: seq<Cell>, F: Fates, c: nat)
    requires CameOut(cells, F) && c < |cells| && Lawful(cells[c])
    ensures F(c) == CellRhs(cells[c], F)
  {
    var d := cells[c].def;
    if d.AsyncOf? || (d.Chained? && d.handler.Closure?) {
      CellIs(cells, F, c, CodeOf(cells[c]));
    } else {
      assert ComesTo(cells, F, c, F(c));
    }
  }

  /** After a drain every lawful promise has the fate that its equation gives it, whatever the others do. */
  lemma DrainedEquation(st: State, c: nat)
    requires Drained(st) && c < |st.cells| && Lawful(st.cells[c])
    ensures st.cells[c].fate == CellRhs(st.cells[c], FateOf(st))
  {
    forall d | 0 <= d < |st.cells| && Single(st.cells[d]) ensures ComesTo(st.cells, FateOf(st), d, FateOf(st)(d)) {
      DrainedOutcome(st, d);
    }
    CameOutEquation(st.cells, FateOf(st), c);
  }

  /** Where all promises are lawful, the fates after a drain are the least fixed point of the equations. */
  lemma DrainedIsLeastFixedPoint(st: State)
    requires Drained(st) && AllLawful(st.cells)
    ensures LeastFixedPoint(st.cells, FateOf(st))
  {
    forall c | 0 <= c < |st.cells| ensures FateOf(st)(c) == CellRhs(st.cells[c], FateOf(st)) { DrainedEquation(st, c); }
    forall G: Fates | Closed(st.cells, G) ensures Below(FateOf(st), G) {
      var A := set c | 0 <= c < |st.cells| && Lawful(st.cells[c]);
      forall F: Fates | LimitedBy(F, A, G, |st.cells|) ensures forall c | c in A :: OutAtMost(st.cells, F, c, G(c)) {
        assert Below(F, G);
        forall c | c in A ensures OutAtMost(st.cells, F, c, G(c)) {
          RhsMonotone(st.cells[c].def, st.cells[c].calls, F, G);
        }
      }
      assert Bounded(st.cells, A, G);
      forall c: nat ensures Leq(FateOf(st)(c), G(c)) {
        if c < |st.cells| { assert c in A; }
      }
    }
  }
}
