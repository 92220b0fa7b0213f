/** What follows from the equations: what async functions, chains of `then`, and chains and cycles of adoption
    come to, in programs that may do anything else beside; and where the engine departs from Promises/A+. */
module Chains {
  import opened Scripts
  import opened Promises
  import opened Invariant
  import opened Draining
  import opened Equations
  import opened Settling
  import opened FixedPoints
  import opened Guarantees

  /** A run of any code, up to and including a drain. */
  ghost predicate Completed(es: seq<Event>) {
    Valid(es + [PromiseTask])
  }

  /** The cells after the final drain. */
  ghost function Final(es: seq<Event>): (cells: seq<Cell>)
    requires Completed(es)
  {
    After(es + [PromiseTask]).cells
  }

  ghost function FinalFates(es: seq<Event>): Fates
    requires Completed(es)
  {
    FateOf(After(es + [PromiseTask]))
  }

  /** A lawful promise comes out as its equation says. */
  lemma Equation(es: seq<Event>, c: nat)
    requires Completed(es) && c < |Final(es)| && Lawful(Final(es)[c])
    ensures Final(es)[c].fate == CellRhs(Final(es)[c], FinalFates(es)) == FinalFates(es)(c)
  {
    OutcomeIsEquation(es, c);
  }

  /** A promise on which not several calls were made comes out as its code does. */
  lemma Course(es: seq<Event>, c: nat)
    requires Completed(es) && c < |Final(es)| && Single(Final(es)[c])
    ensures ComesTo(Final(es), FinalFates(es), c, Final(es)[c].fate) && FinalFates(es)(c) == Final(es)[c].fate
  {
    OutcomeIsCourse(es, c);
  }

  // -------------------------------------------------------------------------------------------
  // Async functions
  // -------------------------------------------------------------------------------------------

  /** Every promise that the body awaits or returns, on the way that the awaited outcomes make it take, is
      settled; for those of the async functions it calls, what direct-style evaluation makes of them. */
  predicate ReachesSettled(s: Script, d: Data, fs: seq<Fate>) {
    match s
    case If(t, a, b) => if t(d) then ReachesSettled(a, d, fs) else ReachesSettled(b, d, fs)
    case Await(r, kv, ke) =>
      r < |fs| && !fs[r].Pending? && ReachesSettled(if fs[r].Resolved? then kv else ke, d.WithArg(fs[r]), fs)
    case Call(body, k) => ReachesSettled(k, d, fs + [Denote(body, d, fs)])
    case Do(op, k) => ReachesSettled(k, d, fs + DenoteOp(op, d, fs))
    case ReturnPromise(r) => r < |fs| && !fs[r].Pending?
    case _ => true
  }

  lemma {:induction false} DenoteSettledIff(s: Script, d: Data, fs: seq<Fate>)
    ensures !Denote(s, d, fs).Pending? <==> ReachesSettled(s, d, fs)
  {
    match s
    case If(t, a, b) => DenoteSettledIff(if t(d) then a else b, d, fs);
    case Await(r, kv, ke) =>
      if r < |fs| { DenoteSettledIff(if fs[r].Resolved? then kv else ke, d.WithArg(fs[r]), fs); }
    case Call(body, k) => DenoteSettledIff(k, d, fs + [Denote(body, d, fs)]);
    case Do(op, k) => DenoteSettledIff(k, d, fs + DenoteOp(op, d, fs));
    case ReturnPromise(r) =>
    case Return(_) =>
    case Throw(_) =>
  }

  /** Any async function, after a drain: in direct style, with the outcomes of the awaited promises, its body
      comes to an end that gives its promise the fate it has, or to an await of a pending promise, and then
      its promise is pending.  On its way it makes the promises `hs`, in this order. */
  lemma AsyncFollowsBody(es: seq<Event>, p: nat) returns (hs: seq<nat>, s: Script, env: Env)
    requires Completed(es) && p < |Final(es)| && Final(es)[p].def.AsyncOf?
    ensures var d, F := Final(es)[p].def, FinalFates(es);
            && MadeAfter(hs, p, |Final(es)|) && Reaches(Final(es), F, d.body, d.env, hs, s, env)
            && if s.Await? then s.r < |env.proms| && F(env.proms[s.r]).Pending? && Final(es)[p].fate.Pending?
               else IsEnd(s, |env.proms|) && Final(es)[p].fate == OutcomeFate(EndOf(s, env), F)
  {
    Course(es, p);
    var F := FinalFates(es);
    if x :| Ended(Final(es), F, p, x) && Final(es)[p].fate == OutcomeFate(x, F) {
      s, env :| At(Final(es), F, p, s, env) && IsEnd(s, |env.proms|) && x == EndOf(s, env);
    } else {
      var q, kv, ke, e :| AtAwait(Final(es), F, p, q, kv, ke, e) && F(q).Pending?;
      var r: nat :| r < |e.proms| && e.proms[r] == q && At(Final(es), F, p, Await(r, kv, ke), e);
      s, env := Await(r, kv, ke), e;
    }
    hs :| MadeAfter(hs, p, |Final(es)|)
          && Reaches(Final(es), F, CodeOf(Final(es)[p]), StartOf(Final(es)[p], F), hs, s, env);
  }

  /** If the body makes no root, the promise has the direct-style result of the body: every await replaced by
      the awaited value or raised error, every call of an async function by what its body comes to, every
      `then`/`_catch` by what the handler does.  It is settled if and only if every promise that this
      evaluation awaits or returns is.  The rest of the program may do what it likes. */
  lemma AsyncIsDirectStyle(es: seq<Event>, p: nat)
    requires Completed(es) && p < |Final(es)| && Final(es)[p].def.AsyncOf? && Rootless(Final(es)[p].def.body)
    ensures var body, env := Final(es)[p].def.body, Final(es)[p].def.env;
            && Final(es)[p].fate == Denote(body, env.data, Seen(env, FinalFates(es)))
            && (!Final(es)[p].fate.Pending? <==> ReachesSettled(body, env.data, Seen(env, FinalFates(es))))
  {
    Equation(es, p);
    var d := Final(es)[p].def;
    DenoteSettledIff(d.body, d.env.data, Seen(d.env, FinalFates(es)));
  }

  /** The outcome of an awaited promise reaches the body, behind all that it had received before: the body goes on
      with the value, or where the error is caught with the error. */
  lemma AwaitReceives(es: seq<Event>, p: nat)
    requires Completed(es) && p < |Final(es)| && Final(es)[p].def.AsyncOf?
    requires Final(es)[p].def.body.Await? && Final(es)[p].def.body.r < |Final(es)[p].def.env.proms|
    requires Rootless(Final(es)[p].def.body)
    ensures var d, F := Final(es)[p].def, FinalFates(es);
            var vals, errs, f, fs := d.env.data.vals, d.env.data.errs, F(d.env.proms[d.body.r]), Seen(d.env, F);
            Final(es)[p].fate ==
              match f
              case Pending => Pending
              case Resolved(v) => Denote(d.body.onValue, Data(vals + [v], errs), fs)
              case Rejected(e) => Denote(d.body.onError, Data(vals, errs + [e]), fs)
  {
    Equation(es, p);
    var d := Final(es)[p].def;
    assert Seen(d.env, FinalFates(es))[d.body.r] == FinalFates(es)(d.env.proms[d.body.r]);
  }

  /** An async function that returns what it awaited, and rethrows what it caught, is the promise it awaits. */
  lemma AwaitIsTransparent(es: seq<Event>, p: nat, r: nat)
    requires Completed(es) && p < |Final(es)| && Final(es)[p].def.AsyncOf? && r < |Final(es)[p].def.env.proms|
    requires Final(es)[p].def.body == Await(r, Return(LAST_VALUE), Throw(LAST_ERROR))
    ensures Final(es)[p].fate == FinalFates(es)(Final(es)[p].def.env.proms[r])
  {
    AwaitReceives(es, p);
  }

  /** What two awaits give stands one behind the other. */
  lemma AwaitsAccumulate(es: seq<Event>, p: nat, r: nat, q: nat, e: Data -> Value, x: Script, y: Script)
    requires Completed(es) && p < |Final(es)| && Final(es)[p].def.AsyncOf?
    requires r < |Final(es)[p].def.env.proms| && q < |Final(es)[p].def.env.proms| && Rootless(x) && Rootless(y)
    requires Final(es)[p].def.body == Await(r, Await(q, Return(e), x), y)
    ensures var d, F := Final(es)[p].def, FinalFates(es);
            var f, g := F(d.env.proms[r]), F(d.env.proms[q]);
            f.Resolved? && g.Resolved? ==>
              Final(es)[p].fate == Resolved(e(Data(d.env.data.vals + [f.value, g.value], d.env.data.errs)))
  {
    AwaitReceives(es, p);
    var d, F := Final(es)[p].def, FinalFates(es);
    assert Seen(d.env, F)[q] == F(d.env.proms[q]);
    if F(d.env.proms[r]).Resolved? && F(d.env.proms[q]).Resolved? {
      assert d.env.data.vals + [F(d.env.proms[r]).value] + [F(d.env.proms[q]).value]
          == d.env.data.vals + [F(d.env.proms[r]).value, F(d.env.proms[q]).value];
    }
  }

  // -------------------------------------------------------------------------------------------
  // Chains of then
  // -------------------------------------------------------------------------------------------

  /** A handler body that ends with a value or an exception, whatever it does to the library before. */
  predicate Plain(s: Script) {
    match s
    case Return(_) => true
    case Throw(_) => true
    case If(_, a, b) => Plain(a) && Plain(b)
    case Do(_, k) => Plain(k)
    case Call(_, k) => Plain(k)
    case _ => false
  }

  /** What it ends with. */
  function Result(s: Script, d: Data): Fate {
    match s
    case Return(e) => Resolved(e(d))
    case Throw(e) => Rejected(e(d))
    case If(t, a, b) => if t(d) then Result(a, d) else Result(b, d)
    case Do(_, k) => Result(k, d)
    case Call(_, k) => Result(k, d)
    case _ => Pending
  }

  lemma {:induction false} PlainReaches(cells: seq<Cell>, F: Fates, s0: Script, env0: Env, hs: seq<nat>, s: Script,
                                        env: Env)
    requires Plain(s0) && Reaches(cells, F, s0, env0, hs, s, env) && IsEnd(s, |env.proms|)
    ensures OutcomeFate(EndOf(s, env), F) == Result(s0, env0.data)
  {
    if !(hs == [] && s0 == s && env0 == env) {
      match s0
      case If(t, a, b) => PlainReaches(cells, F, if t(env0.data) then a else b, env0, hs, s, env);
      case Do(op, k) =>
        if Binds(op) == 0 { PlainReaches(cells, F, k, env0, hs, s, env); }
        else { PlainReaches(cells, F, k, env0.WithPromise(hs[0]), hs[1..], s, env); }
      case Call(_, k) => PlainReaches(cells, F, k, env0.WithPromise(hs[0]), hs[1..], s, env);
    }
  }

  /** A plain handler gives its promise the value or the error it ends with. */
  lemma PlainOutcome(es: seq<Event>, c: nat)
    requires Completed(es) && c < |Final(es)| && Final(es)[c].def.Chained?
    requires Final(es)[c].def.handler.Closure? && Plain(Final(es)[c].def.handler.body)
    ensures var d, f := Final(es)[c].def, FinalFates(es)(Final(es)[c].def.parent);
            Final(es)[c].fate ==
              if WentWay(f, d.side) then Result(d.handler.body, d.handler.env.data.WithArg(f)) else Pending
  {
    Course(es, c);
    var F := FinalFates(es);
    if x :| Ended(Final(es), F, c, x) && Final(es)[c].fate == OutcomeFate(x, F) {
      var s, env :| At(Final(es), F, c, s, env) && IsEnd(s, |env.proms|) && x == EndOf(s, env);
      var hs :| MadeAfter(hs, c, |Final(es)|)
                && Reaches(Final(es), F, CodeOf(Final(es)[c]), StartOf(Final(es)[c], F), hs, s, env);
      PlainReaches(Final(es), F, CodeOf(Final(es)[c]), StartOf(Final(es)[c], F), hs, s, env);
    }
  }

  /** The value or the error of a promise reaches its handlers, behind all that their code had received before.
      So a `then` whose handler returns what it was given passes the value on, and a `_catch` whose handler
      throws what it was given passes the error on. */
  lemma HandlerReceives(es: seq<Event>, c: nat)
    requires Completed(es) && c < |Final(es)| && Final(es)[c].def.Chained? && Final(es)[c].def.handler.Closure?
    ensures var d, f, fate := Final(es)[c].def, FinalFates(es)(Final(es)[c].def.parent), Final(es)[c].fate;
            var body, vals, errs := d.handler.body, d.handler.env.data.vals, d.handler.env.data.errs;
            && (d.side.OnValue? && f.Resolved? && body.Return? ==>
                  fate == Resolved(body.value(Data(vals + [f.value], errs))))
            && (d.side.OnValue? && f.Resolved? && body.Throw? ==>
                  fate == Rejected(body.error(Data(vals + [f.value], errs))))
            && (d.side.OnError? && f.Rejected? && body.Return? ==>
                  fate == Resolved(body.value(Data(vals, errs + [f.error]))))
            && (d.side.OnError? && f.Rejected? && body.Throw? ==>
                  fate == Rejected(body.error(Data(vals, errs + [f.error]))))
            && (d.side.OnValue? && f.Resolved? && body == Return(LAST_VALUE) ==> fate == f)
            && (d.side.OnError? && f.Rejected? && body == Throw(LAST_ERROR) ==> fate == f)
  {
    if Plain(Final(es)[c].def.handler.body) { PlainOutcome(es, c); }
  }

  /** The handlers `hs` applied one after the other; an error stops the chain for good. */
  function Compose(f: Fate, hs: seq<Handler>): Fate
    requires forall i :: 0 <= i < |hs| ==> hs[i].Closure?
  {
    if hs == [] then f
    else
      var g, h := Compose(f, hs[..|hs| - 1]), hs[|hs| - 1];
      if g.Resolved? then Result(h.body, h.env.data.WithArg(g)) else Pending
  }

  /** Promise `cs[i + 1]` is `cs[i].then(hs[i])`; the first one is any promise. */
  ghost predicate ThenChain(cells: seq<Cell>, cs: seq<nat>, hs: seq<Handler>) {
    && |cs| == |hs| + 1
    && (forall i :: 0 <= i < |cs| ==> cs[i] < |cells|)
    && (forall i :: 0 <= i < |hs| ==> cells[cs[i + 1]].def == Chained(OnValue, cs[i], hs[i]))
  }

  /** One drain after the root is settled, promise `k` of a chain of plain handlers holds the `k`-fold
      composition of the handlers. */
  lemma {:induction false} ThenChainComposes(es: seq<Event>, cs: seq<nat>, hs: seq<Handler>, k: nat)
    requires Completed(es) && ThenChain(Final(es), cs, hs) && k <= |hs|
    requires forall i :: 0 <= i < k ==> hs[i].Closure? && Plain(hs[i].body)
    ensures Final(es)[cs[k]].fate == Compose(Final(es)[cs[0]].fate, hs[..k])
  {
    if k > 0 {
      ThenChainComposes(es, cs, hs, k - 1);
      assert hs[..k][..k - 1] == hs[..k - 1];
      assert Final(es)[cs[k - 1 + 1]].def == Chained(OnValue, cs[k - 1], hs[k - 1]);
      PlainOutcome(es, cs[k]);
    }
  }

  /** If promise `k` is rejected, every later promise of the chain is pending: in every state of every run,
      whatever the handlers do. */
  lemma {:induction false} ThenChainBreaks(es: seq<Event>, cs: seq<nat>, hs: seq<Handler>, k: nat, m: nat)
    requires Valid(es) && ThenChain(After(es).cells, cs, hs) && k < m <= |hs|
    requires After(es).cells[cs[k]].fate.Rejected?
    ensures After(es).cells[cs[m]].fate.Pending?
  {
    assert After(es).cells[cs[m - 1 + 1]].def == Chained(OnValue, cs[m - 1], hs[m - 1]);
    ChildNeedsParent(es, cs[m]);
    if m > k + 1 { ThenChainBreaks(es, cs, hs, k, m - 1); }
  }

  // -------------------------------------------------------------------------------------------
  // Adoption
  // -------------------------------------------------------------------------------------------

  /** One drain after the innermost promise - any promise - settles, every promise of an adoption chain that
      no other call touched has its fate. */
  lemma {:induction false} AdoptionChain(es: seq<Event>, qs: seq<nat>, k: nat)
    requires Completed(es) && k < |qs| && (forall i :: 0 <= i < |qs| ==> qs[i] < |Final(es)|)
    requires forall i :: 0 < i < |qs| ==>
               Final(es)[qs[i]].def == Root && Final(es)[qs[i]].calls == [Following(qs[i - 1])]
    ensures Final(es)[qs[k]].fate == Final(es)[qs[0]].fate
  {
    if k > 0 {
      AdoptionChain(es, qs, k - 1);
      Equation(es, qs[k]);
    }
  }

  /** Promises that wait for each other: none comes out as anything while the others have not. */
  ghost predicate Circle(cells: seq<Cell>, circle: set<nat>) {
    Bounded(cells, circle, NOTHING)
  }

  /** In every state of every run, promises that wait for each other in a circle are pending. */
  lemma CirclePending(es: seq<Event>, circle: set<nat>, c: nat)
    requires Valid(es) && Circle(After(es).cells, circle) && c in circle
    ensures c < |After(es).cells| && After(es).cells[c].fate == Pending
  {
    NothingFromNothing(es, circle, NOTHING, c);
  }

  /** Whatever `s` comes to, it first waits for, or returns, a promise marked in `stuck`.  Of the promises that
      it makes itself, those that must wait for such a promise are marked as well if `deep`. */
  predicate Stops(s: Script, stuck: seq<bool>, deep: bool) {
    match s
    case ReturnPromise(r) => r < |stuck| && stuck[r]
    case If(_, a, b) => Stops(a, stuck, deep) && Stops(b, stuck, deep)
    case Await(r, _, _) => r < |stuck| && stuck[r]
    case Call(body, k) => Stops(k, stuck + [deep && Stops(body, stuck, deep)], deep)
    case Do(op, k) => Stops(k, stuck + StopsOp(op, stuck, deep), deep)
    case _ => false
  }

  function StopsOp(op: Op, stuck: seq<bool>, deep: bool): (marks: seq<bool>)
    ensures |marks| == Binds(op) && (!deep ==> forall i :: 0 <= i < |marks| ==> !marks[i])
  {
    match op
    case Chain(_, r, _, body) => [deep && ((r < |stuck| && stuck[r]) || Stops(body, stuck, deep))]
    case _ => if Binds(op) == 1 then [false] else []
  }

  ghost predicate Marked(stuck: seq<bool>, fs: seq<Fate>) {
    |stuck| == |fs| && forall i :: 0 <= i < |fs| && stuck[i] ==> fs[i].Pending?
  }

  lemma {:induction false} StopsPending(s: Script, stuck: seq<bool>, d: Data, fs: seq<Fate>)
    requires Marked(stuck, fs)
    ensures Stops(s, stuck, true) ==> Denote(s, d, fs).Pending?
  {
    match s
    case If(t, a, b) => StopsPending(if t(d) then a else b, stuck, d, fs);
    case Call(body, k) =>
      StopsPending(body, stuck, d, fs);
      StopsPending(k, stuck + [Stops(body, stuck, true)], d, fs + [Denote(body, d, fs)]);
    case Do(op, k) =>
      StopsOpPending(op, stuck, d, fs);
      StopsPending(k, stuck + StopsOp(op, stuck, true), d, fs + DenoteOp(op, d, fs));
    case _ =>
  }

  lemma {:induction false} StopsOpPending(op: Op, stuck: seq<bool>, d: Data, fs: seq<Fate>)
    requires Marked(stuck, fs)
    ensures Marked(StopsOp(op, stuck, true), DenoteOp(op, d, fs))
  {
    if op.Chain? && op.r < |fs| { StopsPending(op.body, stuck, d.WithArg(fs[op.r]), fs); }
  }

  /** Code that stops so does not end, unless it returns a promise that is pending. */
  lemma {:induction false} StopsShort(cells: seq<Cell>, F: Fates, stuck: seq<bool>, s0: Script, env0: Env,
                                      hs: seq<nat>, s: Script, env: Env)
    requires Marked(stuck, Seen(env0, F)) && Stops(s0, stuck, false)
    requires Reaches(cells, F, s0, env0, hs, s, env) && IsEnd(s, |env.proms|)
    ensures OutcomeFate(EndOf(s, env), F).Pending?
    decreases s0
  {
    assert forall i :: 0 <= i < |env0.proms| ==> Seen(env0, F)[i] == F(env0.proms[i]);
    if !(hs == [] && s0 == s && env0 == env) {
      match s0
      case If(t, a, b) => StopsShort(cells, F, stuck, if t(env0.data) then a else b, env0, hs, s, env);
      case Await(_, _, _) =>
      case Do(op, k) =>
        if Binds(op) == 0 {
          assert stuck + StopsOp(op, stuck, false) == stuck;
          StopsShort(cells, F, stuck, k, env0, hs, s, env);
        } else {
          assert StopsOp(op, stuck, false) == [false];
          StopsShort(cells, F, stuck + [false], k, env0.WithPromise(hs[0]), hs[1..], s, env);
        }
      case Call(_, k) => StopsShort(cells, F, stuck + [false], k, env0.WithPromise(hs[0]), hs[1..], s, env);
    }
  }

  function Marks(env: Env, circle: set<nat>): (ms: seq<bool>)
    ensures |ms| == |env.proms|
  {
    seq(|env.proms|, i requires 0 <= i < |env.proms| => env.proms[i] in circle)
  }

  /** A promise waits for the circle if it adopts a promise of it, is chained to one, or has a handler or an
      async body that awaits or returns one. */
  predicate WaitsFor(c: Cell, circle: set<nat>) {
    match c.def
    case Root => c.calls != [] && c.calls[0].Following? && c.calls[0].q in circle
    case Given(_) => false
    case Chained(_, p, h) =>
      p in circle || (h.Closure? && Stops(h.body, Marks(h.env, circle), Rootless(h.body)))
    case AsyncOf(env, body) => Stops(body, Marks(env, circle), Rootless(body))
  }

  lemma WaitsForPending(cells: seq<Cell>, c: nat, circle: set<nat>, F: Fates)
    requires c < |cells| && WaitsFor(cells[c], circle) && forall d | d in circle :: F(d) == Pending
    ensures OutAtMost(cells, F, c, Pending)
  {
    if Lawful(cells[c]) { LawfulStops(cells[c], circle, F); } else {
      forall x | Ended(cells, F, c, x) ensures OutcomeFate(x, F).Pending? { AnyStops(cells, c, circle, F, x); }
    }
  }

  lemma LawfulStops(c: Cell, circle: set<nat>, F: Fates)
    requires Lawful(c) && WaitsFor(c, circle) && forall d | d in circle :: F(d) == Pending
    ensures CellRhs(c, F) == Pending
  {
    match c.def
    case Chained(side, p, h) =>
      if p !in circle { StopsPending(h.body, Marks(h.env, circle), h.env.data.WithArg(F(p)), Seen(h.env, F)); }
    case AsyncOf(env, body) => StopsPending(body, Marks(env, circle), env.data, Seen(env, F));
    case _ =>
  }

  lemma AnyStops(cells: seq<Cell>, c: nat, circle: set<nat>, F: Fates, x: Outcome)
    requires c < |cells| && !Lawful(cells[c]) && WaitsFor(cells[c], circle) && Ended(cells, F, c, x)
    requires forall d | d in circle :: F(d) == Pending
    ensures OutcomeFate(x, F).Pending?
  {
    if !cells[c].def.Root? {
      var s, env :| At(cells, F, c, s, env) && IsEnd(s, |env.proms|) && x == EndOf(s, env);
      var s0, env0 := CodeOf(cells[c]), StartOf(cells[c], F);
      var hs :| MadeAfter(hs, c, |cells|) && Reaches(cells, F, s0, env0, hs, s, env);
      StopsShort(cells, F, Marks(env0, circle), s0, env0, hs, s, env);
    }
  }

  /** Adoption cycles stay pending, self-adoption included, and so do cycles through `then`, through promises
      that handlers return, and through awaits. */
  lemma AdoptionCyclePending(es: seq<Event>, circle: set<nat>, c: nat)
    requires Valid(es) && c in circle
    requires forall d | d in circle ::
               d < |After(es).cells| && Single(After(es).cells[d]) && WaitsFor(After(es).cells[d], circle)
    ensures c < |After(es).cells| && After(es).cells[c].fate == Pending
  {
    var cells := After(es).cells;
    forall F: Fates | LimitedBy(F, circle, NOTHING, |cells|)
      ensures forall d | d in circle :: OutAtMost(cells, F, d, NOTHING(d))
    {
      forall d | d in circle ensures OutAtMost(cells, F, d, Pending) { WaitsForPending(cells, d, circle, F); }
    }
    CirclePending(es, circle, c);
  }

  // -------------------------------------------------------------------------------------------
  // Where the engine departs from Promises/A+
  // -------------------------------------------------------------------------------------------

  /** The promise of `then`/`_catch` stays pending if its parent did not settle that way; if it did, the promise
      has the outcome of its handler, whatever that is: a value, an error, or the fate of a promise that it
      returned.  In particular a rejection is not passed on by `then`, nor a value by `_catch` (sections
      2.2.7.3 and 2.2.7.4 of Promises/A+ ask for both). */
  lemma ChildComesOut(es: seq<Event>, c: nat)
    requires Completed(es) && c < |Final(es)| && Final(es)[c].def.Chained?
    ensures var d, F := Final(es)[c].def, FinalFates(es);
            if WentWay(F(d.parent), d.side)
            then exists x :: Ended(Final(es), F, c, x) && Final(es)[c].fate == OutcomeFate(x, F)
            else Final(es)[c].fate.Pending?
  {
    Course(es, c);
  }

  /** With a handler that makes no root, it is settled if and only if its parent settled that way and the
      result of the handler is settled. */
  lemma ChildSettlesIff(es: seq<Event>, c: nat)
    requires Completed(es) && c < |Final(es)| && Final(es)[c].def.Chained? && Lawful(Final(es)[c])
    ensures var d := Final(es)[c].def;
            !Final(es)[c].fate.Pending? <==>
              && WentWay(FinalFates(es)(d.parent), d.side)
              && !DenoteHandler(d.handler, FinalFates(es)(d.parent), FinalFates(es)).Pending?
  {
    Equation(es, c);
  }

  /** `then` on a rejected promise: nothing is queued and the returned promise is pending. */
  lemma RejectionNotPassedOn(e: Error, h: Handler)
    ensures var st := Register(AllocSettled(INIT, false, Rejected(e)), OnValue, 0, h);
            st.queue == [] && |st.cells| == 2 && st.cells[0].fate == Rejected(e) && st.cells[1].fate == Pending
            && st.cells[0].fulfilled == [] && st.cells[0].rejected == []
  {
  }

  /** And `_catch` on a resolved one. */
  lemma ValueNotPassedOn(v: Value, h: Handler)
    ensures var st := Register(AllocSettled(INIT, false, Resolved(v)), OnError, 0, h);
            st.queue == [] && |st.cells| == 2 && st.cells[0].fate == Resolved(v) && st.cells[1].fate == Pending
            && st.cells[0].fulfilled == [] && st.cells[0].rejected == []
  {
  }

  /** A promise that is told to follow itself: no error, nothing queued, and it waits for itself. */
  lemma SelfAdoptionInstance()
    ensures var es := [Code(Do(New, Do(Follow(0, 0), Return(_ => Blank))), Env(Data([], []), []))];
            && Valid(es) && After(es).queue == [] && |After(es).cells| == 1 && After(es).cells[0].fate == Pending
            && After(es).cells[0].fulfilled == [Adopt(0)] == After(es).cells[0].rejected
  {
    var es := [Code(Do(New, Do(Follow(0, 0), Return(_ => Blank))), Env(Data([], []), []))];
    assert es[..0] == [];
    assert Valid([]) && After([]) == INIT;
  }

  /** `resolve(promise)` locks in the outcome (section 2.3.2.1 of Promises/A+) if and only if the outer
      promise or the inner one is already settled: otherwise a later call on the outer promise wins. */
  lemma AdoptionLocksIff(st: State, outer: nat, inner: nat, f: Settled)
    requires outer < |st.cells| && inner < |st.cells|
    ensures var st1 := CtxFollow(st, outer, inner);
            var st2 := CtxSettle(st1, outer, f);
            (st2.cells[outer].fate == st1.cells[outer].fate <==>
               !st.cells[outer].fate.Pending? || !st.cells[inner].fate.Pending?)
            && (st2.cells[outer].fate != st1.cells[outer].fate ==> st2.cells[outer].fate == f)
  {
  }

  // -------------------------------------------------------------------------------------------
  // What is queued, and what is ignored
  // -------------------------------------------------------------------------------------------

  /** `resolved` and `rejected` are queued at once if and only if they are those of `Promise<void>`; with a handler of
      their side they are queued once in either case. */
  lemma SettledQueuedIff(st: State, isVoid: bool, f: Settled, h: Handler)
    ensures var n, st' := |st.cells|, AllocSettled(st, isVoid, f);
            && |st'.cells| == n + 1 && st'.cells[n].fate == f && st'.cells[..n] == st.cells
            && st'.queue == (if isVoid then st.queue + [n] else st.queue)
            && Register(st', if f.Resolved? then OnValue else OnError, n, h).queue == st.queue + [n]
  {
  }

  /** When a handler of a pending `child` has returned a value or thrown, the inner promise is queued if the handler
      returns `void`, as those of an await do, and then the child is.  When it has returned a promise, there is no
      other inner promise, and the child is queued if that one is settled. */
  lemma HandlerQueues(st: State, h: Handler, child: nat)
    requires CanBegin(st, h, child) && child < |st.cells| && Idle(st)
    ensures var r, st' := RunHead(st, h, child), CallHandler(st, h, child);
            && !r.1.Suspended?
            && (child < |r.0.cells| && r.0.cells[child].fate.Pending? ==>
                  if r.1.ReturnedPromise?
                  then && |st'.cells| == |r.0.cells|
                       && st'.queue == r.0.queue + if r.0.cells[r.1.p].fate.Pending? then [] else [child]
                  else && |st'.cells| == |r.0.cells| + 1
                       && st'.queue == r.0.queue + (if h.Resume? || h.isVoid then [|r.0.cells|] else []) + [child])
  {
    HeadOutcome(st, h, child);
  }

  /** A call on a settled promise, to settle it again or to follow another, does nothing at all. */
  lemma SettledIgnoresCalls(st: State, p: nat, f: Settled, q: nat)
    requires p < |st.cells| && q < |st.cells| && !st.cells[p].fate.Pending?
    ensures CtxSettle(st, p, f) == Record(st, p, Direct(f))
    ensures CtxFollow(st, p, q) == Record(st, p, Following(q))
  {
  }
}
