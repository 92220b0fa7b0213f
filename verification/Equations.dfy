/** What promises mean, independently of when anything happens: every promise has an equation in the fates
    of the promises it depends on. */
module Equations {
  import opened Scripts
  import opened Promises
  import opened Invariant

  type Fates = nat -> Fate

  /** Nothing settled. */
  const NOTHING: Fates := (p: nat) => Pending

  /** Code that makes no promise with an executor, nor do the handlers and async bodies in it.  The fates of
      the promises that such code makes are determined by those of the promises it was given. */
  predicate Rootless(s: Script) {
    match s
    case Do(op, k) => RootlessOp(op) && Rootless(k)
    case Call(body, k) => Rootless(body) && Rootless(k)
    case If(_, a, b) => Rootless(a) && Rootless(b)
    case Await(_, kv, ke) => Rootless(kv) && Rootless(ke)
    case _ => true
  }

  predicate RootlessOp(op: Op) {
    !op.New? && (op.Chain? ==> Rootless(op.body))
  }

  /** A promise of fate `f` calls back the handlers of list `side`. */
  predicate WentWay(f: Fate, side: Side) {
    !f.Pending? && Way(f) == side
  }

  /** Direct-style evaluation, the promises in reach having fates `fs`.  An await continues with the value
      or where the error is caught; the call of an async function stands for what its body comes to, and
      `then`/`_catch` for what the handler does.  Calls on other promises, and tasks, leave no trace. */
  function Denote(s: Script, d: Data, fs: seq<Fate>): Fate {
    match s
    case Return(e) => Resolved(e(d))
    case ReturnPromise(r) => if r < |fs| then fs[r] else Pending
    case Throw(e) => Rejected(e(d))
    case If(t, a, b) => if t(d) then Denote(a, d, fs) else Denote(b, d, fs)
    case Await(r, kv, ke) =>
      var f := if r < |fs| then fs[r] else Pending;
      if f.Pending? then Pending else Denote(if f.Resolved? then kv else ke, d.WithArg(f), fs)
    case Call(body, k) => Denote(k, d, fs + [Denote(body, d, fs)])
    case Do(op, k) => Denote(k, d, fs + DenoteOp(op, d, fs))
  }

  /** What a library call adds to the fates in reach.  Of a promise made with an executor nothing is known. */
  function DenoteOp(op: Op, d: Data, fs: seq<Fate>): (gs: seq<Fate>)
    ensures |gs| == Binds(op)
  {
    match op
    case New => [Pending]
    case NewSettled(_, f) => [f(d)]
    case Chain(side, r, _, body) =>
      [if r < |fs| && WentWay(fs[r], side) then Denote(body, d.WithArg(fs[r]), fs) else Pending]
    case _ => []
  }

  /** The fates of the promises that an environment holds. */
  function Seen(env: Env, F: Fates): (fs: seq<Fate>)
    ensures |fs| == |env.proms|
  {
    seq(|env.proms|, i requires 0 <= i < |env.proms| => F(env.proms[i]))
  }

  function DenoteHandler(h: Handler, arg: Settled, F: Fates): Fate {
    match h
    case Closure(_, env, body) => Denote(body, env.data.WithArg(arg), Seen(env, F))
    case Resume(_) => Resolved(Blank)
  }

  /** The equation of a promise with origin `d` on which `calls` were made. */
  function Rhs(d: Def, calls: seq<CtxCall>, F: Fates): Fate {
    match d
    case Root =>
      if calls == [] then Pending
      else if calls[0].Direct? then calls[0].fate else F(calls[0].q)
    case Given(f) => f
    case Chained(side, p, h) =>
      if WentWay(F(p), side) then DenoteHandler(h, F(p), F) else Pending
    case AsyncOf(env, body) => Denote(body, env.data, Seen(env, F))
  }

  function CellRhs(c: Cell, F: Fates): Fate {
    Rhs(c.def, c.calls, F)
  }

  /** At most one call settles or redirects a root: otherwise it depends on the order of events which one
      does.  Nothing is asked of any other promise. */
  predicate Single(c: Cell) {
    c.def.Root? ==> |c.calls| <= 1
  }

  /** The promises whose equation says it all: those whose own handler or async body makes no root. */
  predicate Lawful(c: Cell) {
    match c.def
    case Root => |c.calls| <= 1
    case Given(_) => true
    case Chained(_, _, h) => h.Closure? ==> Rootless(h.body)
    case AsyncOf(_, body) => Rootless(body)
  }

  ghost predicate AllLawful(cells: seq<Cell>) {
    forall c :: 0 <= c < |cells| ==> Lawful(cells[c])
  }

  function FatesIn(cells: seq<Cell>): Fates {
    (p: nat) => if p < |cells| then cells[p].fate else Pending
  }

  function FateOf(st: State): Fates {
    FatesIn(st.cells)
  }

  predicate Leq(f: Fate, g: Fate) {
    f.Pending? || f == g
  }

  ghost predicate Below(F: Fates, G: Fates) {
    forall p: nat :: Leq(F(p), G(p))
  }

  /** `G` settles whatever the equations settle: a pre-fixed point. */
  ghost predicate Closed(cells: seq<Cell>, G: Fates) {
    forall p :: 0 <= p < |cells| ==> Leq(CellRhs(cells[p], G), G(p))
  }

  ghost predicate FixedPoint(cells: seq<Cell>, F: Fates) {
    forall p :: 0 <= p < |cells| ==> F(p) == CellRhs(cells[p], F)
  }

  /** `F` solves the equations, and settles nothing that another solution leaves open or settles otherwise. */
  ghost predicate LeastFixedPoint(cells: seq<Cell>, F: Fates) {
    FixedPoint(cells, F) && forall G: Fates :: Closed(cells, G) ==> Below(F, G)
  }

  ghost predicate LeqAll(fs: seq<Fate>, gs: seq<Fate>) {
    |fs| == |gs| && forall i :: 0 <= i < |fs| ==> Leq(fs[i], gs[i])
  }

  lemma {:induction false} DenoteMonotone(s: Script, d: Data, fs: seq<Fate>, gs: seq<Fate>)
    requires LeqAll(fs, gs)
    ensures Leq(Denote(s, d, fs), Denote(s, d, gs))
  {
    match s
    case Return(_) =>
    case ReturnPromise(r) =>
    case Throw(_) =>
    case If(t, a, b) =>
      DenoteMonotone(a, d, fs, gs);
      DenoteMonotone(b, d, fs, gs);
    case Await(r, kv, ke) =>
      if r < |fs| {
        DenoteMonotone(kv, d.WithArg(fs[r]), fs, gs);
        DenoteMonotone(ke, d.WithArg(fs[r]), fs, gs);
      }
    case Call(body, k) =>
      DenoteMonotone(body, d, fs, gs);
      DenoteMonotone(k, d, fs + [Denote(body, d, fs)], gs + [Denote(body, d, gs)]);
    case Do(op, k) =>
      DenoteOpMonotone(op, d, fs, gs);
      DenoteMonotone(k, d, fs + DenoteOp(op, d, fs), gs + DenoteOp(op, d, gs));
  }

  lemma {:induction false} DenoteOpMonotone(op: Op, d: Data, fs: seq<Fate>, gs: seq<Fate>)
    requires LeqAll(fs, gs)
    ensures LeqAll(DenoteOp(op, d, fs), DenoteOp(op, d, gs))
  {
    if op.Chain? && op.r < |fs| && !fs[op.r].Pending? { DenoteMonotone(op.body, d.WithArg(fs[op.r]), fs, gs); }
  }

  lemma RhsMonotone(d: Def, calls: seq<CtxCall>, F: Fates, G: Fates)
    requires Below(F, G)
    ensures Leq(Rhs(d, calls, F), Rhs(d, calls, G))
  {
    match d
    case Root =>
    case Given(_) =>
    case Chained(side, p, h) =>
      assert Leq(F(p), G(p));
      if h.Closure? && !F(p).Pending? {
        DenoteMonotone(h.body, h.env.data.WithArg(F(p)), Seen(h.env, F), Seen(h.env, G));
      }
    case AsyncOf(env, body) => DenoteMonotone(body, env.data, Seen(env, F), Seen(env, G));
  }

  // -------------------------------------------------------------------------------------------
  // The course of code
  // -------------------------------------------------------------------------------------------

  /** A promise of origin `d` is what operation `op` makes for code with `env`. */
  ghost predicate MadeBy(d: Def, op: Op, env: Env) {
    match op
    case New => d.Root?
    case NewSettled(_, f) => d == Given(f(env.data))
    case Chain(side, r, isVoid, body) =>
      r < |env.proms| && d == Chained(side, env.proms[r], Closure(isVoid, env, body))
    case _ => false
  }

  /** Direct-style evaluation step by step: where the awaited promises have fates `F`, code `s0` with `env0`
      comes to `s` with `env`, and the promises that it makes on its way are `hs`. */
  ghost predicate Reaches(cells: seq<Cell>, F: Fates, s0: Script, env0: Env, hs: seq<nat>, s: Script, env: Env) {
    || (hs == [] && s0 == s && env0 == env)
    || match s0
       case If(t, a, b) => Reaches(cells, F, if t(env0.data) then a else b, env0, hs, s, env)
       case Await(r, kv, ke) =>
         && r < |env0.proms| && !F(env0.proms[r]).Pending?
         && var f := F(env0.proms[r]);
            Reaches(cells, F, if f.Resolved? then kv else ke, env0.WithArg(f), hs, s, env)
       case Do(op, k) =>
         if Binds(op) == 0 then Reaches(cells, F, k, env0, hs, s, env)
         else
           && hs != [] && hs[0] < |cells| && MadeBy(cells[hs[0]].def, op, env0)
           && Reaches(cells, F, k, env0.WithPromise(hs[0]), hs[1..], s, env)
       case Call(body, k) =>
         && hs != [] && hs[0] < |cells| && cells[hs[0]].def == AsyncOf(env0, body)
         && Reaches(cells, F, k, env0.WithPromise(hs[0]), hs[1..], s, env)
       case _ => false
  }

  /** The promises `hs` were made one after the other, all after `c`. */
  ghost predicate MadeAfter(hs: seq<nat>, c: nat, n: nat) {
    && (forall i :: 0 <= i < |hs| ==> c < hs[i] < n)
    && (forall i, j :: 0 <= i < j < |hs| ==> hs[i] < hs[j])
  }

  /** The promise stands for the outcome of some code, which has been started. */
  predicate HasCode(c: Cell, F: Fates) {
    c.def.AsyncOf? || (c.def.Chained? && c.def.handler.Closure? && WentWay(F(c.def.parent), c.def.side))
  }

  function CodeOf(c: Cell): Script
    requires c.def.AsyncOf? || (c.def.Chained? && c.def.handler.Closure?)
  {
    if c.def.AsyncOf? then c.def.body else c.def.handler.body
  }

  /** What that code starts from: a handler gets the value or error of its promise. */
  function StartOf(c: Cell, F: Fates): Env
    requires c.def.AsyncOf? || (c.def.Chained? && c.def.handler.Closure?)
  {
    if c.def.AsyncOf? then c.def.env else c.def.handler.env.WithArg(F(c.def.parent))
  }

  /** The code of promise `c` comes to `s` with `env`. */
  ghost predicate At(cells: seq<Cell>, F: Fates, c: nat, s: Script, env: Env) {
    && c < |cells| && HasCode(cells[c], F)
    && exists hs :: MadeAfter(hs, c, |cells|) && Reaches(cells, F, CodeOf(cells[c]), StartOf(cells[c], F), hs, s, env)
  }

  /** The three ways in which code ends. */
  predicate IsEnd(s: Script, n: nat) {
    s.Return? || s.Throw? || (s.ReturnPromise? && s.r < n)
  }

  function EndOf(s: Script, env: Env): Outcome
    requires IsEnd(s, |env.proms|)
  {
    match s
    case Return(e) => Returned(e(env.data))
    case ReturnPromise(r) => ReturnedPromise(env.proms[r])
    case Throw(e) => Threw(e(env.data))
  }

  function OutcomeFate(x: Outcome, F: Fates): Fate {
    match x
    case Returned(v) => Resolved(v)
    case ReturnedPromise(q) => F(q)
    case Threw(e) => Rejected(e)
    case Suspended => Pending
  }

  function OutcomeOf(f: Settled): Outcome {
    if f.Resolved? then Returned(f.value) else Threw(f.error)
  }

  /** What was to be done for promise `c` has been done, with outcome `x`. */
  ghost predicate Ended(cells: seq<Cell>, F: Fates, c: nat, x: Outcome) {
    && c < |cells|
    && match cells[c].def
       case Root =>
         && cells[c].calls != []
         && x == if cells[c].calls[0].Direct? then OutcomeOf(cells[c].calls[0].fate)
                 else ReturnedPromise(cells[c].calls[0].q)
       case Given(f) => x == OutcomeOf(f)
       case Chained(side, p, Resume(_)) => WentWay(F(p), side) && x == Returned(Blank)
       case _ => exists s, env :: At(cells, F, c, s, env) && IsEnd(s, |env.proms|) && x == EndOf(s, env)
  }

  /** The code of an async function has come to an await of `p`. */
  ghost predicate AtAwait(cells: seq<Cell>, F: Fates, c: nat, p: nat, kv: Script, ke: Script, env: Env) {
    exists r: nat :: r < |env.proms| && env.proms[r] == p && At(cells, F, c, Await(r, kv, ke), env)
  }

  /** There is nothing that could settle `c`: no call on a root, a parent that is pending or went the other
      way, or an await of a pending promise. */
  ghost predicate Halted(cells: seq<Cell>, F: Fates, c: nat) {
    && c < |cells|
    && match cells[c].def
       case Root => cells[c].calls == []
       case Given(f) => false
       case Chained(side, p, _) => !WentWay(F(p), side)
       case AsyncOf(_, _) => exists p, kv, ke, env :: AtAwait(cells, F, c, p, kv, ke, env) && F(p).Pending?
  }

  /** Promise `c` has fate `f`, as what was done for it has it. */
  ghost predicate ComesTo(cells: seq<Cell>, F: Fates, c: nat, f: Fate) {
    || (exists x :: Ended(cells, F, c, x) && f == OutcomeFate(x, F))
    || (Halted(cells, F, c) && f.Pending?)
  }

  // -------------------------------------------------------------------------------------------
  // How a state stands to its equations
  // -------------------------------------------------------------------------------------------

  /** What may settle a promise. */
  ghost predicate Due(st: State, p: nat, f: Settled)
    requires p < |st.cells|
  {
    Single(st.cells[p]) ==> exists x :: Ended(st.cells, FateOf(st), p, x) && OutcomeFate(x, FateOf(st)) == f
  }

  /** What is settled has its cause. */
  ghost predicate Justified(st: State) {
    forall c :: 0 <= c < |st.cells| && !st.cells[c].fate.Pending? ==> Due(st, c, st.cells[c].fate)
  }

  /** Where the others have fates `F`, promise `c` comes out no further than `g`. */
  ghost predicate OutAtMost(cells: seq<Cell>, F: Fates, c: nat, g: Fate)
    requires c < |cells|
  {
    if Lawful(cells[c]) then Leq(CellRhs(cells[c], F), g)
    else forall x :: Ended(cells, F, c, x) ==> Leq(OutcomeFate(x, F), g)
  }

  /** For the promises `A`, fates below `G` lead to fates below `G`. */
  ghost predicate Bounded(cells: seq<Cell>, A: set<nat>, G: Fates) {
    && (forall c | c in A :: c < |cells| && Single(cells[c]))
    && forall F: Fates :: LimitedBy(F, A, G, |cells|) ==> forall c | c in A :: OutAtMost(cells, F, c, G(c))
  }

  ghost predicate LimitedBy(F: Fates, A: set<nat>, G: Fates, n: nat) {
    (forall c | c in A :: Leq(F(c), G(c))) && forall c :: c >= n ==> F(c) == Pending
  }

  /** Nothing is settled beyond what code and equations, started from nothing, lead to. */
  ghost predicate Grounded(st: State) {
    forall A: set<nat>, G: Fates :: Bounded(st.cells, A, G) ==>
      forall c | c in A :: c < |st.cells| && Leq(st.cells[c].fate, G(c))
  }

  ghost predicate LinkOk(st: State, q: nat, w: Wrapper) {
    w.Adopt? ==>
      w.outer < |st.cells|
      && (Single(st.cells[w.outer]) ==> Ended(st.cells, FateOf(st), w.outer, ReturnedPromise(q)))
  }

  ghost predicate LinksOk(st: State) {
    forall q, side, i :: 0 <= q < |st.cells| && 0 <= i < |st.cells[q].List(side)| ==>
      LinkOk(st, q, st.cells[q].List(side)[i])
  }

  ghost predicate GenOk(st: State, g: nat)
    requires g < |st.gens|
  {
    var o, s := st.gens[g].owner, st.gens[g].status;
    && o < |st.cells| && st.cells[o].def.AsyncOf?
    && (s.SUSPENDED? ==> AtAwait(st.cells, FateOf(st), o, s.awaited, s.onValue, s.onError, s.env))
  }

  ghost predicate GensOk(st: State) {
    forall g :: 0 <= g < |st.gens| ==> GenOk(st, g)
  }

  /** `q` will pass its outcome on to `c`. */
  ghost predicate Linked(st: State, q: nat, c: nat) {
    q < |st.cells| && forall side :: Fireable(st, q, side) ==> Adopt(c) in st.cells[q].List(side)
  }

  // -------------------------------------------------------------------------------------------
  // The course of code and the equations
  // -------------------------------------------------------------------------------------------

  lemma {:induction false} ReachesTrans(cells: seq<Cell>, F: Fates, s0: Script, env0: Env, hs: seq<nat>, s1: Script,
                                        env1: Env, gs: seq<nat>, s: Script, env: Env)
    requires Reaches(cells, F, s0, env0, hs, s1, env1) && Reaches(cells, F, s1, env1, gs, s, env)
    ensures Reaches(cells, F, s0, env0, hs + gs, s, env)
  {
    if hs == [] && s0 == s1 && env0 == env1 {
      assert hs + gs == gs;
    } else {
      match s0
      case If(t, a, b) => ReachesTrans(cells, F, if t(env0.data) then a else b, env0, hs, s1, env1, gs, s, env);
      case Await(r, kv, ke) =>
        var f := F(env0.proms[r]);
        ReachesTrans(cells, F, if f.Resolved? then kv else ke, env0.WithArg(f), hs, s1, env1, gs, s, env);
      case Do(op, k) =>
        if Binds(op) == 0 {
          ReachesTrans(cells, F, k, env0, hs, s1, env1, gs, s, env);
        } else {
          assert (hs + gs)[1..] == hs[1..] + gs;
          ReachesTrans(cells, F, k, env0.WithPromise(hs[0]), hs[1..], s1, env1, gs, s, env);
        }
      case Call(body, k) =>
        assert (hs + gs)[1..] == hs[1..] + gs;
        ReachesTrans(cells, F, k, env0.WithPromise(hs[0]), hs[1..], s1, env1, gs, s, env);
    }
  }

  /** Promises have been added, and calls made. */
  ghost predicate Extends(a: seq<Cell>, b: seq<Cell>) {
    && |a| <= |b|
    && forall c :: 0 <= c < |a| ==> b[c].def == a[c].def && a[c].calls <= b[c].calls
  }

  /** Code stays on its course while promises are added and settled. */
  lemma {:induction false} LaterReaches(a: seq<Cell>, F: Fates, b: seq<Cell>, G: Fates, s0: Script, env0: Env,
                                        hs: seq<nat>, s: Script, env: Env)
    requires Extends(a, b) && Below(F, G) && Reaches(a, F, s0, env0, hs, s, env)
    ensures Reaches(b, G, s0, env0, hs, s, env)
  {
    if !(hs == [] && s0 == s && env0 == env) {
      match s0
      case If(t, x, y) => LaterReaches(a, F, b, G, if t(env0.data) then x else y, env0, hs, s, env);
      case Await(r, kv, ke) =>
        var f := F(env0.proms[r]);
        assert Leq(f, G(env0.proms[r]));
        LaterReaches(a, F, b, G, if f.Resolved? then kv else ke, env0.WithArg(f), hs, s, env);
      case Do(op, k) =>
        if Binds(op) == 0 {
          LaterReaches(a, F, b, G, k, env0, hs, s, env);
        } else {
          LaterReaches(a, F, b, G, k, env0.WithPromise(hs[0]), hs[1..], s, env);
        }
      case Call(body, k) => LaterReaches(a, F, b, G, k, env0.WithPromise(hs[0]), hs[1..], s, env);
    }
  }

  lemma SameStart(x: Cell, y: Cell, F: Fates, G: Fates)
    requires HasCode(x, F) && y.def == x.def && Below(F, G)
    ensures HasCode(y, G) && CodeOf(y) == CodeOf(x) && StartOf(y, G) == StartOf(x, F)
  {
    if x.def.Chained? { assert Leq(F(x.def.parent), G(x.def.parent)); }
  }

  lemma MadeMore(pre: seq<nat>, hs: seq<nat>, c: nat, n: nat, m: nat)
    requires MadeAfter(pre, c, n) && c < n <= m && (hs == [] || (|hs| == 1 && n <= hs[0] < m))
    ensures MadeAfter(pre + hs, c, m)
  {
  }

  lemma LaterAt(a: seq<Cell>, F: Fates, b: seq<Cell>, G: Fates, c: nat, s: Script, env: Env)
    requires Extends(a, b) && Below(F, G) && At(a, F, c, s, env)
    ensures At(b, G, c, s, env)
  {
    var hs :| MadeAfter(hs, c, |a|) && Reaches(a, F, CodeOf(a[c]), StartOf(a[c], F), hs, s, env);
    LaterReaches(a, F, b, G, CodeOf(a[c]), StartOf(a[c], F), hs, s, env);
    SameStart(a[c], b[c], F, G);
    assert MadeAfter(hs, c, |b|);
  }

  lemma LaterAtAwait(a: seq<Cell>, F: Fates, b: seq<Cell>, G: Fates, c: nat, p: nat, kv: Script, ke: Script, env: Env)
    requires Extends(a, b) && Below(F, G) && AtAwait(a, F, c, p, kv, ke, env)
    ensures AtAwait(b, G, c, p, kv, ke, env)
  {
    var r: nat :| r < |env.proms| && env.proms[r] == p && At(a, F, c, Await(r, kv, ke), env);
    LaterAt(a, F, b, G, c, Await(r, kv, ke), env);
  }

  lemma LaterEnded(a: seq<Cell>, F: Fates, b: seq<Cell>, G: Fates, c: nat, x: Outcome)
    requires Extends(a, b) && Below(F, G) && Ended(a, F, c, x)
    ensures Ended(b, G, c, x)
  {
    match a[c].def
    case Root => assert b[c].calls[0] == a[c].calls[0];
    case Given(_) =>
    case Chained(_, p, Resume(_)) => assert Leq(F(p), G(p));
    case _ =>
      var s, env :| At(a, F, c, s, env) && IsEnd(s, |env.proms|) && x == EndOf(s, env);
      LaterAt(a, F, b, G, c, s, env);
  }

  /** Code makes a step, on which it may make a promise. */
  lemma StepAt(cells: seq<Cell>, F: Fates, o: nat, s0: Script, env0: Env, pre: seq<nat>, hs: seq<nat>, s: Script,
               env: Env)
    requires o < |cells| && HasCode(cells[o], F) && MadeAfter(pre + hs, o, |cells|)
    requires Reaches(cells, F, CodeOf(cells[o]), StartOf(cells[o], F), pre, s0, env0)
    requires Reaches(cells, F, s0, env0, hs, s, env)
    ensures At(cells, F, o, s, env)
  {
    ReachesTrans(cells, F, CodeOf(cells[o]), StartOf(cells[o], F), pre, s0, env0, hs, s, env);
  }

  /** The same where `a` was there before the step and `b` is there after it. */
  lemma GoesOn(a: seq<Cell>, F: Fates, b: seq<Cell>, G: Fates, o: nat, s0: Script, env0: Env, hs: seq<nat>, s: Script,
               env: Env)
    requires Extends(a, b) && Below(F, G) && At(a, F, o, s0, env0) && Reaches(b, G, s0, env0, hs, s, env)
    requires hs == [] || (|hs| == 1 && |a| <= hs[0] < |b|)
    ensures At(b, G, o, s, env)
  {
    var c, e := CodeOf(a[o]), StartOf(a[o], F);
    var pre :| MadeAfter(pre, o, |a|) && Reaches(a, F, c, e, pre, s0, env0);
    LaterReaches(a, F, b, G, c, e, pre, s0, env0);
    SameStart(a[o], b[o], F, G);
    MadeMore(pre, hs, o, |a|, |b|);
    StepAt(b, G, o, s0, env0, pre, hs, s, env);
  }
}
