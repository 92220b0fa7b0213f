/** The amount of work waiting in a state: user code that has not run, plus one or two units for each
    internal wrapper it can still leave behind.  Every callback consumes some of it, which is why a
    drain over lists that grow while they are visited comes to an end. */
module Weights {
  import opened Scripts
  import opened Promises

  function Sum<T>(xs: seq<T>, f: T -> nat): nat {
    if xs == [] then 0 else f(xs[0]) + Sum(xs[1..], f)
  }

  lemma {:induction false} SumConcat<T>(xs: seq<T>, ys: seq<T>, f: T -> nat)
    ensures Sum(xs + ys, f) == Sum(xs, f) + Sum(ys, f)
  {
    if xs == [] {
      assert xs + ys == ys;
    } else {
      SumConcat(xs[1..], ys, f);
      assert (xs + ys)[1..] == xs[1..] + ys;
    }
  }

  lemma {:induction false} SumUpdate<T>(xs: seq<T>, i: nat, x: T, f: T -> nat)
    requires i < |xs|
    ensures Sum(xs[i := x], f) + f(xs[i]) == Sum(xs, f) + f(x)
  {
    if i == 0 {
      assert xs[i := x][1..] == xs[1..];
    } else {
      SumUpdate(xs[1..], i - 1, x, f);
      assert xs[i := x][1..] == xs[1..][i - 1 := x];
    }
  }

  function HandlerWeight(h: Handler): nat {
    match h
    case Closure(_, _, body) => Weight(body) + 3
    case Resume(_) => 1
  }

  function WrapperWeight(w: Wrapper): nat {
    match w
    case Adopt(_) => 1
    case Handle(h, _) => HandlerWeight(h)
  }

  function ListWeight(ws: seq<Wrapper>): nat {
    Sum(ws, WrapperWeight)
  }

  function CellWeight(c: Cell): nat {
    ListWeight(c.fulfilled) + ListWeight(c.rejected)
  }

  function GenWeight(g: Coroutine): nat {
    match g.status
    case SUSPENDED(_, kv, ke, _, _, _) => Weight(kv) + Weight(ke) + 2
    case _ => 0
  }

  function TaskWeight(t: Task): nat {
    match t
    case RunPromiseTask => 1
    case RunCode(_, body) => Weight(body) + 3
  }

  function Total(st: State): nat {
    Sum(st.cells, CellWeight) + Sum(st.gens, GenWeight)
      + Sum(st.permanents, TaskWeight) + Sum(st.oneshots, HandlerWeight)
  }

  lemma SumSingle<T>(xs: seq<T>, x: T, f: T -> nat)
    ensures Sum(xs + [x], f) == Sum(xs, f) + f(x)
  {
    SumConcat(xs, [x], f);
  }

  lemma SetCellTotal(st: State, p: nat, c: Cell)
    requires p < |st.cells|
    ensures Total(SetCell(st, p, c)) + CellWeight(st.cells[p]) == Total(st) + CellWeight(c)
  {
    SumUpdate(st.cells, p, c, CellWeight);
  }

  lemma SetGenTotal(st: State, g: nat, s: GenStatus)
    requires g < |st.gens|
    ensures Total(SetGen(st, g, s)) + GenWeight(st.gens[g]) == Total(st) + GenWeight(st.gens[g].(status := s))
  {
    SumUpdate(st.gens, g, st.gens[g].(status := s), GenWeight);
  }

  lemma AllocTotal(st: State, def: Def, fate: Fate)
    ensures Total(Alloc(st, def, fate)) == Total(st)
  {
    SumSingle(st.cells, FreshCell(def, fate), CellWeight);
  }

  lemma SettleTotal(st: State, p: nat, f: Settled)
    requires p < |st.cells|
    ensures Total(Settle(st, p, f)) == Total(st)
  {
    SetCellTotal(st, p, st.cells[p].(fate := f, pendingCallback := true));
  }

  lemma PushTotal(st: State, p: nat, side: Side, w: Wrapper)
    requires p < |st.cells|
    ensures Total(SetCell(st, p, st.cells[p].WithList(side, st.cells[p].List(side) + [w])))
            == Total(st) + WrapperWeight(w)
  {
    SetCellTotal(st, p, st.cells[p].WithList(side, st.cells[p].List(side) + [w]));
    SumSingle(st.cells[p].List(side), w, WrapperWeight);
  }

  lemma AssociateTotal(st: State, outer: nat, inner: nat)
    requires outer < |st.cells| && inner < |st.cells|
    ensures Total(Associate(st, outer, inner)) <= Total(st) + if st.cells[inner].fate.Pending? then 2 else 0
  {
    var c := st.cells[inner];
    if c.fate.Pending? {
      SumSingle(c.fulfilled, Adopt(outer), WrapperWeight);
      SumSingle(c.rejected, Adopt(outer), WrapperWeight);
      SetCellTotal(st, inner,
        c.(fulfilled := c.fulfilled + [Adopt(outer)], rejected := c.rejected + [Adopt(outer)]));
    } else {
      SettleTotal(st, outer, c.fate);
    }
  }

  lemma RegisterTotal(st: State, side: Side, p: nat, h: Handler)
    requires p < |st.cells|
    ensures Total(Register(st, side, p, h)) <= Total(st) + HandlerWeight(h)
  {
    var child := |st.cells|;
    AllocTotal(st, Chained(side, p, h), Pending);
    var st1 := Alloc(st, Chained(side, p, h), Pending);
    var c := st1.cells[p];
    if c.fate.Pending? || Way(c.fate) == side {
      var st2 := if !c.fate.Pending? && !c.pendingCallback
                 then SetCell(st1, p, c.(pendingCallback := true)).(queue := st1.queue + [p]) else st1;
      SetCellTotal(st1, p, c.(pendingCallback := true));
      PushTotal(st2, p, side, Handle(h, child));
    }
  }

  lemma ArmTotal(st: State, g: nat, p: nat, env: Env, kv: Script, ke: Script)
    requires g < |st.gens| && p < |st.cells|
    ensures Total(Arm(st, g, p, env, kv, ke)) <= Total(st) + Weight(kv) + Weight(ke) + 4
  {
    RegisterTotal(st, OnValue, p, Resume(g));
    var st1 := Register(st, OnValue, p, Resume(g));
    RegisterTotal(st1, OnError, p, Resume(g));
    var st2 := Register(st1, OnError, p, Resume(g));
    SetGenTotal(st2, g, SUSPENDED(env, kv, ke, p, |st.cells|, |st.cells| + 1));
  }

  lemma AllocSettledTotal(st: State, isVoid: bool, f: Settled)
    ensures Total(AllocSettled(st, isVoid, f)) == Total(st)
  {
    AllocTotal(st, Given(f), f);
    AllocTotal(st, Given(f), Pending);
    SettleTotal(Alloc(st, Given(f), Pending), |st.cells|, f);
  }

  lemma RecordTotal(st: State, p: nat, call: CtxCall)
    requires p < |st.cells|
    ensures Total(Record(st, p, call)) == Total(st)
  {
    SetCellTotal(st, p, st.cells[p].(calls := st.cells[p].calls + [call]));
  }

  lemma AdoptionTotal(st: State, outer: nat, inner: nat)
    requires outer < |st.cells| && inner < |st.cells|
    ensures Total(Adoption(st, outer, inner)) <= Total(st) + 2
  {
    AssociateTotal(st, outer, inner);
  }

  lemma FinishGenTotal(st: State, g: nat, p: nat, o: Outcome)
    requires g < |st.gens| && p < |st.cells|
    requires o.ReturnedPromise? ==> o.p < |st.cells|
    ensures Total(FinishGen(st, g, p, o)) <= Total(st) + 2
  {
    SetGenTotal(st, g, DONE);
    var st1 := SetGen(st, g, DONE);
    match o
    case Suspended =>
    case Returned(v) => SettleTotal(st1, p, Resolved(v));
    case ReturnedPromise(q) => AdoptionTotal(st1, p, q);
    case Threw(e) => SettleTotal(st1, p, Rejected(e));
  }

  lemma StartAsyncTotal(st: State, env: Env, body: Script)
    ensures Total(StartAsync(st, env, body)) == Total(st)
  {
    AllocTotal(st, AsyncOf(env, body), Pending);
    SumSingle(st.gens, Coroutine(|st.cells|, RUNNING), GenWeight);
  }

  lemma LibraryCallTotal(op: Op, env: Env, st: State)
    requires ScopedOp(op, |env.proms|) && EnvOk(env, |st.cells|)
    ensures Total(LibraryCall(op, env, st).1) <= Total(st) + OpWeight(op)
  {
    match op
    case New => AllocTotal(st, Root, Pending);
    case NewSettled(isVoid, f) => AllocSettledTotal(st, isVoid, f(env.data));
    case Chain(side, r, isVoid, body) => RegisterTotal(st, side, env.proms[r], Closure(isVoid, env, body));
    case SettleWith(r, f) =>
      RecordTotal(st, env.proms[r], Direct(f(env.data)));
      SettleTotal(Record(st, env.proms[r], Direct(f(env.data))), env.proms[r], f(env.data));
    case Follow(r, q) =>
      RecordTotal(st, env.proms[r], Following(env.proms[q]));
      AdoptionTotal(Record(st, env.proms[r], Following(env.proms[q])), env.proms[r], env.proms[q]);
    case Oneshot(body) => SumSingle(st.oneshots, Closure(true, env, body), HandlerWeight);
    case Permanent(body) => SumSingle(st.permanents, RunCode(env, body), TaskWeight);
  }

  /** Running a script adds no more work than its own weight. */
  lemma {:induction false} ExecTotal(s: Script, env: Env, cur: int, st: State)
    requires EnvOk(env, |st.cells|) && cur < |st.gens|
    requires Scoped(s, |env.proms|, 0 <= cur)
    ensures Total(Exec(s, env, cur, st).0) <= Total(st) + Weight(s)
    decreases s, 0
  {
    match s
    case Return(_) =>
    case ReturnPromise(_) =>
    case Throw(_) =>
    case If(t, a, b) => ExecTotal(if t(env.data) then a else b, env, cur, st);
    case Do(op, k) =>
      var r := LibraryCall(op, env, st);
      LibraryCallTotal(op, env, st);
      ExecTotal(k, r.0, cur, r.1);
    case Call(body, k) =>
      CallAsyncTotal(st, env, body);
      ExecTotal(k, env.WithPromise(|st.cells|), cur, CallAsync(st, env, body));
    case Await(r, kv, ke) => ArmTotal(st, cur, env.proms[r], env, kv, ke);
  }

  lemma {:induction false} CallAsyncTotal(st: State, env: Env, body: Script)
    requires EnvOk(env, |st.cells|) && Scoped(body, |env.proms|, true)
    ensures Total(CallAsync(st, env, body)) <= Total(st) + Weight(body) + 2
    decreases body, 1
  {
    StartAsyncTotal(st, env, body);
    ExecTotal(body, env, |st.gens|, StartAsync(st, env, body));
    var r := Exec(body, env, |st.gens|, StartAsync(st, env, body));
    FinishGenTotal(r.0, |st.gens|, |st.cells|, r.1);
  }
}
