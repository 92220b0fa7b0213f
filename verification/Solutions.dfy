/** The outcomes of a drained system, computed without queue, flags or wrappers: evaluate all equations
    together, round after round, starting from nothing settled. */
module Solutions {
  import opened Scripts
  import opened Promises
  import opened Equations

  function Lookup(fs: seq<Fate>): Fates {
    (p: nat) => if p < |fs| then fs[p] else Pending
  }

  /** The fates known after `n` rounds. */
  function Iterate(cells: seq<Cell>, n: nat): (fs: seq<Fate>)
    ensures |fs| == |cells|
  {
    if n == 0 then seq(|cells|, _ => Pending)
    else
      var F := Lookup(Iterate(cells, n - 1));
      seq(|cells|, i requires 0 <= i < |cells| => CellRhs(cells[i], F))
  }

  /** As many rounds as there are promises. */
  function Solve(cells: seq<Cell>): (fs: seq<Fate>)
    ensures |fs| == |cells|
  {
    Iterate(cells, |cells|)
  }

  /** Each round keeps what the previous ones settled. */
  lemma {:induction false} IterateGrows(cells: seq<Cell>, n: nat)
    ensures Below(Lookup(Iterate(cells, n)), Lookup(Iterate(cells, n + 1)))
  {
    if n > 0 {
      IterateGrows(cells, n - 1);
      forall i | 0 <= i < |cells| ensures Leq(Iterate(cells, n)[i], Iterate(cells, n + 1)[i]) {
        RhsMonotone(cells[i].def, cells[i].calls, Lookup(Iterate(cells, n - 1)), Lookup(Iterate(cells, n)));
      }
    }
  }

  function Settleds(fs: seq<Fate>): nat {
    if fs == [] then 0 else (if fs[0].Pending? then 0 else 1) + Settleds(fs[1..])
  }

  lemma {:induction false} SettledsGrow(fs: seq<Fate>, gs: seq<Fate>)
    requires |fs| == |gs| && forall i :: 0 <= i < |fs| ==> Leq(fs[i], gs[i])
    ensures Settleds(fs) <= Settleds(gs) <= |gs|
    ensures fs != gs ==> Settleds(fs) < Settleds(gs)
  {
    if fs != [] {
      SettledsGrow(fs[1..], gs[1..]);
      if fs[0] == gs[0] && fs != gs { assert fs == [fs[0]] + fs[1..] && gs == [gs[0]] + gs[1..]; }
    }
  }

  /** A round that settles nothing new is followed by none that does; so `n` rounds settle `n` promises
      or reach the end. */
  lemma {:induction false} IterateProgress(cells: seq<Cell>, n: nat)
    ensures Iterate(cells, n + 1) == Iterate(cells, n) || Settleds(Iterate(cells, n + 1)) > n
  {
    var fs, gs := Iterate(cells, n), Iterate(cells, n + 1);
    IterateGrows(cells, n);
    forall i | 0 <= i < |cells| ensures Leq(fs[i], gs[i]) {
      assert Leq(Lookup(fs)(i), Lookup(gs)(i));
    }
    SettledsGrow(fs, gs);
    if n > 0 { IterateProgress(cells, n - 1); }
  }

  lemma {:induction false} IterateStable(cells: seq<Cell>, n: nat)
    requires n >= |cells|
    ensures Iterate(cells, n) == Solve(cells)
  {
    if n > |cells| {
      IterateStable(cells, n - 1);
      IterateProgress(cells, |cells|);
      SettledsGrow(Iterate(cells, |cells| + 1), Iterate(cells, |cells| + 1));
    }
  }

  /** The rounds never settle more than a solution of the equations does. */
  lemma {:induction false} IterateBelow(cells: seq<Cell>, n: nat, G: Fates)
    requires Closed(cells, G)
    ensures Below(Lookup(Iterate(cells, n)), G)
  {
    if n > 0 {
      IterateBelow(cells, n - 1, G);
      forall i | 0 <= i < |cells| ensures Leq(Iterate(cells, n)[i], G(i)) {
        RhsMonotone(cells[i].def, cells[i].calls, Lookup(Iterate(cells, n - 1)), G);
        assert Leq(CellRhs(cells[i], G), G(i));
      }
    }
  }

  lemma SolveIsFixedPoint(cells: seq<Cell>, p: nat)
    requires p < |cells|
    ensures Solve(cells)[p] == CellRhs(cells[p], Lookup(Solve(cells)))
  {
    IterateStable(cells, |cells| + 1);
    assert Iterate(cells, |cells| + 1)[p] == Solve(cells)[p];
  }

  /** Every system of equations has a least fixed point: the one that the rounds compute. */
  lemma SolveIsLeast(cells: seq<Cell>)
    ensures LeastFixedPoint(cells, Lookup(Solve(cells)))
  {
    var S := Lookup(Solve(cells));
    forall p | 0 <= p < |cells| ensures S(p) == CellRhs(cells[p], S) { SolveIsFixedPoint(cells, p); }
    forall G: Fates | Closed(cells, G) ensures Below(S, G) { IterateBelow(cells, |cells|, G); }
  }

  /** There is no other. */
  lemma LeastIsUnique(cells: seq<Cell>, F: Fates, p: nat)
    requires LeastFixedPoint(cells, F) && p < |cells|
    ensures F(p) == Solve(cells)[p]
  {
    var S := Lookup(Solve(cells));
    SolveIsLeast(cells);
    assert Closed(cells, S) && Closed(cells, F);
    assert Leq(F(p), S(p)) && Leq(S(p), F(p));
  }

  // -------------------------------------------------------------------------------------------
  // The same program under other handles
  // -------------------------------------------------------------------------------------------

  /** The same environment, handler, origin or call with handle `h[i]` in the place of handle `i`. */
  ghost predicate EnvRenamed(x: Env, y: Env, h: seq<nat>) {
    && x.data == y.data && |x.proms| == |y.proms|
    && forall i :: 0 <= i < |x.proms| ==> x.proms[i] < |h| && y.proms[i] == h[x.proms[i]]
  }

  ghost predicate HandlerRenamed(x: Handler, y: Handler, h: seq<nat>) {
    match x
    case Closure(isVoid, env, body) =>
      y.Closure? && y.isVoid == isVoid && y.body == body && EnvRenamed(env, y.env, h)
    case Resume(_) => y.Resume?
  }

  ghost predicate DefRenamed(x: Def, y: Def, h: seq<nat>) {
    match x
    case Root => y.Root?
    case Given(f) => y == x
    case Chained(side, p, c) =>
      y.Chained? && y.side == side && p < |h| && y.parent == h[p] && HandlerRenamed(c, y.handler, h)
    case AsyncOf(env, body) => y.AsyncOf? && y.body == body && EnvRenamed(env, y.env, h)
  }

  ghost predicate CallRenamed(x: CtxCall, y: CtxCall, h: seq<nat>) {
    match x
    case Direct(_) => y == x
    case Following(q) => q < |h| && y == Following(h[q])
  }

  ghost predicate CellRenamed(x: Cell, y: Cell, h: seq<nat>) {
    && DefRenamed(x.def, y.def, h)
    && (x.def.Root? ==>
          |x.calls| == |y.calls| && forall i :: 0 <= i < |x.calls| ==> CallRenamed(x.calls[i], y.calls[i], h))
  }

  /** The system `a` sits in the system `b`, its promise `i` being promise `h[i]` there. */
  ghost predicate Renamed(a: seq<Cell>, b: seq<Cell>, h: seq<nat>) {
    && |h| == |a|
    && (forall i :: 0 <= i < |a| ==> h[i] < |b|)
    && (forall i {:trigger a[i]} :: 0 <= i < |a| ==> CellRenamed(a[i], b[h[i]], h))
    && (forall i, j :: 0 <= i < j < |a| ==> h[i] != h[j])
  }

  /** The fates of the renamed promises. */
  ghost predicate Agree(F: Fates, G: Fates, h: seq<nat>) {
    forall i :: 0 <= i < |h| ==> F(i) == G(h[i])
  }

  lemma RenamedSeen(x: Env, y: Env, h: seq<nat>, F: Fates, G: Fates)
    requires EnvRenamed(x, y, h) && Agree(F, G, h)
    ensures Seen(x, F) == Seen(y, G)
  {
  }

  lemma RenamedRhs(x: Cell, y: Cell, h: seq<nat>, F: Fates, G: Fates)
    requires CellRenamed(x, y, h) && Agree(F, G, h)
    ensures CellRhs(x, F) == CellRhs(y, G)
  {
    match x.def
    case Root => if x.calls != [] { assert CallRenamed(x.calls[0], y.calls[0], h); }
    case Given(_) =>
    case Chained(_, _, c) => if c.Closure? { RenamedSeen(c.env, y.def.handler.env, h, F, G); }
    case AsyncOf(env, _) => RenamedSeen(env, y.def.env, h, F, G);
  }

  lemma {:induction false} IterateRenamed(a: seq<Cell>, b: seq<Cell>, h: seq<nat>, n: nat)
    requires Renamed(a, b, h)
    ensures Agree(Lookup(Iterate(a, n)), Lookup(Iterate(b, n)), h)
  {
    if n > 0 {
      IterateRenamed(a, b, h, n - 1);
      forall i | 0 <= i < |h| ensures Iterate(a, n)[i] == Iterate(b, n)[h[i]] {
        RenamedRhs(a[i], b[h[i]], h, Lookup(Iterate(a, n - 1)), Lookup(Iterate(b, n - 1)));
      }
    }
  }

  lemma LookupAgree(fs: seq<Fate>, gs: seq<Fate>, h: seq<nat>, i: nat)
    requires Agree(Lookup(fs), Lookup(gs), h) && i < |h| && i < |fs| && h[i] < |gs|
    ensures fs[i] == gs[h[i]]
  {
    assert Lookup(fs)(i) == Lookup(gs)(h[i]);
  }

  /** A system has the same solution under other handles, and inside any larger system. */
  lemma SolveRenamed(a: seq<Cell>, b: seq<Cell>, h: seq<nat>, i: nat)
    requires Renamed(a, b, h) && i < |a|
    ensures Solve(a)[i] == Solve(b)[h[i]]
  {
    var n := |a| + |b|;
    IterateStable(a, n);
    IterateStable(b, n);
    IterateRenamed(a, b, h, n);
    LookupAgree(Iterate(a, n), Iterate(b, n), h, i);
  }
}
