/** What any code keeps: every promise that is settled has its cause, and every one that is pending has
    something on its way that will settle it.  Only roots with several calls are left aside. */
module Settling {
  import opened Scripts
  import opened Promises
  import opened Invariant
  import opened Weights
  import opened Equations

  /** A pending promise has not been given a cause, or something that will settle it is still on its way. */
  ghost predicate Waits(st: State, c: nat)
    requires c < |st.cells|
  {
    || (exists q: nat :: Linked(st, q, c))
    || match st.cells[c].def
       case Root => st.cells[c].calls == []
       case Given(_) => false
       case Chained(side, p, h) =>
         p < |st.cells| && (Fireable(st, p, side) ==> Handle(h, c) in st.cells[p].List(side))
       case AsyncOf(_, _) => exists g :: 0 <= g < |st.gens| && st.gens[g].owner == c && !st.gens[g].status.DONE?
  }

  /** `busy` are the promises whose cause is being worked on. */
  ghost predicate WaitsBut(st: State, busy: set<nat>) {
    forall c :: 0 <= c < |st.cells| && c !in busy && Single(st.cells[c]) && st.cells[c].fate.Pending? ==> Waits(st, c)
  }

  ghost predicate Meaningful(st: State) {
    Justified(st) && Grounded(st) && LinksOk(st) && GensOk(st)
  }

  ghost predicate Solving(st: State, busy: set<nat>) {
    Meaningful(st) && WaitsBut(st, busy)
  }

  // -------------------------------------------------------------------------------------------
  // Growth
  // -------------------------------------------------------------------------------------------

  lemma EvolvesExtends(a: State, b: State)
    requires Evolves(a, b)
    ensures Extends(a.cells, b.cells) && Below(FateOf(a), FateOf(b))
  {
  }

  /** A lawful promise was lawful before, and if it had its cause then its equation was the same. */
  lemma LaterEquation(a: State, b: State, c: nat)
    requires Evolves(a, b) && c < |a.cells| && Lawful(b.cells[c])
    ensures Lawful(a.cells[c])
    ensures !(a.cells[c].def.Root? && a.cells[c].calls == []) ==>
              forall F: Fates :: CellRhs(b.cells[c], F) == CellRhs(a.cells[c], F)
  {
    if a.cells[c].def.Root? && a.cells[c].calls != [] {
      assert a.cells[c].calls == b.cells[c].calls;
    }
  }

  /** What has ended has ended for good. */
  lemma StaysEnded(a: State, b: State, c: nat, x: Outcome)
    requires Evolves(a, b) && Ended(a.cells, FateOf(a), c, x)
    ensures Ended(b.cells, FateOf(b), c, x)
  {
    EvolvesExtends(a, b);
    LaterEnded(a.cells, FateOf(a), b.cells, FateOf(b), c, x);
  }

  lemma StaysAtAwait(a: State, b: State, c: nat, p: nat, kv: Script, ke: Script, env: Env)
    requires Evolves(a, b) && AtAwait(a.cells, FateOf(a), c, p, kv, ke, env)
    ensures AtAwait(b.cells, FateOf(b), c, p, kv, ke, env)
  {
    EvolvesExtends(a, b);
    LaterAtAwait(a.cells, FateOf(a), b.cells, FateOf(b), c, p, kv, ke, env);
  }

  lemma LaterLink(a: State, b: State, q: nat, w: Wrapper)
    requires LinkOk(a, q, w) && Evolves(a, b)
    ensures LinkOk(b, q, w)
  {
    if w.Adopt? && Single(b.cells[w.outer]) { StaysEnded(a, b, w.outer, ReturnedPromise(q)); }
  }

  lemma LaterGen(a: State, b: State, g: nat)
    requires g < |a.gens| && GenOk(a, g) && Evolves(a, b) && (b.gens[g] == a.gens[g] || !b.gens[g].status.SUSPENDED?)
    ensures GenOk(b, g)
  {
    var s := a.gens[g].status;
    if s.SUSPENDED? && b.gens[g] == a.gens[g] {
      StaysAtAwait(a, b, a.gens[g].owner, s.awaited, s.onValue, s.onError, s.env);
    }
  }

  lemma GrownLinked(a: State, b: State, q: nat, c: nat)
    requires Linked(a, q, c) && Grown(a, b)
    ensures Linked(b, q, c)
  {
    forall side | Fireable(b, q, side) ensures Adopt(c) in b.cells[q].List(side) {
      assert Fireable(a, q, side) && ListGrown(a, b, q, side);
      var i :| 0 <= i < |a.cells[q].List(side)| && a.cells[q].List(side)[i] == Adopt(c);
      assert b.cells[q].List(side)[i] == Adopt(c);
    }
  }

  lemma GrownWaits(a: State, b: State, c: nat)
    requires c < |a.cells| && Waits(a, c) && Grown(a, b)
    requires b.cells[c].def.Root? ==> b.cells[c].calls == a.cells[c].calls
    requires forall g :: 0 <= g < |a.gens| && !a.gens[g].status.DONE? ==> !b.gens[g].status.DONE?
    ensures Waits(b, c)
  {
    if q: nat :| Linked(a, q, c) {
      GrownLinked(a, b, q, c);
    } else {
      match a.cells[c].def
      case Chained(side, p, h) =>
        assert ListGrown(a, b, p, side);
        if Fireable(b, p, side) {
          var i :| 0 <= i < |a.cells[p].List(side)| && a.cells[p].List(side)[i] == Handle(h, c);
          assert b.cells[p].List(side)[i] == Handle(h, c);
        }
      case AsyncOf(_, _) =>
        var g :| 0 <= g < |a.gens| && a.gens[g].owner == c && !a.gens[g].status.DONE?;
        assert b.gens[g].owner == c;
      case _ =>
    }
  }

  /** Growth in which every new wrapper and every new suspension means what it says. */
  lemma GrownSolving(a: State, b: State, busy: set<nat>)
    requires Solving(a, busy) && Grown(a, b) && Justified(b) && Grounded(b)
    requires forall c :: 0 <= c < |a.cells| && c !in busy && b.cells[c].def.Root? ==>
               b.cells[c].calls == a.cells[c].calls
    requires forall g :: 0 <= g < |a.gens| && !a.gens[g].status.DONE? ==> !b.gens[g].status.DONE?
    requires forall g :: 0 <= g < |b.gens| ==> (g < |a.gens| && b.gens[g] == a.gens[g]) || GenOk(b, g)
    requires forall q, side, i :: 0 <= q < |a.cells| && |a.cells[q].List(side)| <= i < |b.cells[q].List(side)| ==>
               LinkOk(b, q, b.cells[q].List(side)[i])
    requires forall c :: |a.cells| <= c < |b.cells| && b.cells[c].fate.Pending? && c !in busy ==> Waits(b, c)
    ensures Solving(b, busy)
  {
    forall q, side, i | 0 <= q < |b.cells| && 0 <= i < |b.cells[q].List(side)|
      ensures LinkOk(b, q, b.cells[q].List(side)[i])
    {
      if q < |a.cells| {
        assert ListGrown(a, b, q, side);
        if i < |a.cells[q].List(side)| {
          assert b.cells[q].List(side)[i] == a.cells[q].List(side)[i];
          LaterLink(a, b, q, a.cells[q].List(side)[i]);
        }
      }
    }
    forall g | 0 <= g < |b.gens| ensures GenOk(b, g) {
      if g < |a.gens| && b.gens[g] == a.gens[g] { LaterGen(a, b, g); }
    }
    forall c | 0 <= c < |b.cells| && c !in busy && Single(b.cells[c]) && b.cells[c].fate.Pending? ensures Waits(b, c) {
      if c < |a.cells| { GrownWaits(a, b, c); }
    }
  }

  /** What may settle a promise may settle it later. */
  lemma LaterDue(a: State, b: State, c: nat, f: Settled)
    requires c < |a.cells| && Evolves(a, b) && Due(a, c, f)
    ensures Due(b, c, f)
  {
    if Single(b.cells[c]) {
      var x :| Ended(a.cells, FateOf(a), c, x) && OutcomeFate(x, FateOf(a)) == f;
      StaysEnded(a, b, c, x);
    }
  }

  function Among(A: set<nat>, n: nat): set<nat> {
    set c | c in A && c < n
  }

  /** What bounds promises later bounded them before. */
  lemma AtMostBefore(a: State, b: State, F: Fates, c: nat, g: Fate)
    requires Evolves(a, b) && c < |a.cells| && Single(b.cells[c]) && OutAtMost(b.cells, F, c, g)
    ensures OutAtMost(a.cells, F, c, g)
  {
    if Lawful(b.cells[c]) {
      LaterEquation(a, b, c);
    } else {
      EvolvesExtends(a, b);
      forall x | Ended(a.cells, F, c, x) ensures Leq(OutcomeFate(x, F), g) {
        LaterEnded(a.cells, F, b.cells, F, c, x);
      }
    }
  }

  lemma BoundedBefore(a: State, b: State, A: set<nat>, G: Fates)
    requires Evolves(a, b) && Bounded(b.cells, A, G)
    ensures Bounded(a.cells, Among(A, |a.cells|), G)
  {
    var B := Among(A, |a.cells|);
    forall F: Fates | LimitedBy(F, B, G, |a.cells|) ensures forall c | c in B :: OutAtMost(a.cells, F, c, G(c)) {
      assert LimitedBy(F, A, G, |b.cells|);
      forall c | c in B ensures OutAtMost(a.cells, F, c, G(c)) { AtMostBefore(a, b, F, c, G(c)); }
    }
  }

  /** Where no old promise is settled, and new ones are pending or settled from the start. */
  lemma SameFates(a: State, b: State)
    requires Justified(a) && Grounded(a) && Evolves(a, b)
    requires forall c :: 0 <= c < |a.cells| ==> b.cells[c].fate == a.cells[c].fate
    requires forall c :: |a.cells| <= c < |b.cells| && !b.cells[c].fate.Pending? ==>
               b.cells[c].def == Given(b.cells[c].fate)
    ensures Justified(b) && Grounded(b)
  {
    forall c | 0 <= c < |b.cells| && !b.cells[c].fate.Pending? ensures Due(b, c, b.cells[c].fate) {
      if c < |a.cells| {
        LaterDue(a, b, c, b.cells[c].fate);
      } else {
        assert Ended(b.cells, FateOf(b), c, OutcomeOf(b.cells[c].fate));
      }
    }
    forall A: set<nat>, G: Fates | Bounded(b.cells, A, G)
      ensures forall c | c in A :: c < |b.cells| && Leq(b.cells[c].fate, G(c))
    {
      BoundedBefore(a, b, A, G);
      var B := Among(A, |a.cells|);
      assert LimitedBy(NOTHING, A, G, |b.cells|);
      forall c | c in A ensures Leq(b.cells[c].fate, G(c)) {
        if c < |a.cells| { assert c in B; } else { assert OutAtMost(b.cells, NOTHING, c, G(c)); }
      }
    }
  }

  // -------------------------------------------------------------------------------------------
  // The course of code and its equation
  // -------------------------------------------------------------------------------------------

  /** A promise that code has made is settled no further than direct-style evaluation of the call says. */
  lemma {:induction false} MadeBelow(st: State, c: nat, op: Op, env: Env)
    requires Justified(st) && RootlessOp(op) && c < |st.cells| && MadeBy(st.cells[c].def, op, env)
    ensures Leq(st.cells[c].fate, DenoteOp(op, env.data, Seen(env, FateOf(st)))[0])
    decreases op, 3
  {
    if op.Chain? { CellBelow(st, c, op.body); }
    else if !st.cells[c].fate.Pending? { assert Due(st, c, st.cells[c].fate); }
  }

  /** No promise whose code makes no root is settled further than its equation says. */
  lemma {:induction false} CellBelow(st: State, c: nat, s: Script)
    requires Justified(st) && Rootless(s) && c < |st.cells|
    requires st.cells[c].def.AsyncOf? || (st.cells[c].def.Chained? && st.cells[c].def.handler.Closure?)
    requires CodeOf(st.cells[c]) == s
    ensures Leq(st.cells[c].fate, CellRhs(st.cells[c], FateOf(st)))
    decreases s, 2
  {
    if !st.cells[c].fate.Pending? {
      assert Due(st, c, st.cells[c].fate);
      var x :| Ended(st.cells, FateOf(st), c, x) && OutcomeFate(x, FateOf(st)) == st.cells[c].fate;
      EndedBelow(st, c, s, x);
    }
  }

  lemma {:induction false} EndedBelow(st: State, c: nat, s: Script, x: Outcome)
    requires Justified(st) && Rootless(s) && c < |st.cells|
    requires st.cells[c].def.AsyncOf? || (st.cells[c].def.Chained? && st.cells[c].def.handler.Closure?)
    requires CodeOf(st.cells[c]) == s && Ended(st.cells, FateOf(st), c, x)
    ensures Leq(OutcomeFate(x, FateOf(st)), CellRhs(st.cells[c], FateOf(st)))
    decreases s, 1
  {
    var F, cell := FateOf(st), st.cells[c];
    var t, env :| At(st.cells, F, c, t, env) && IsEnd(t, |env.proms|) && x == EndOf(t, env);
    var hs :| MadeAfter(hs, c, |st.cells|) && Reaches(st.cells, F, s, StartOf(cell, F), hs, t, env);
    ReachesBelow(st, s, StartOf(cell, F), hs, t, env);
    assert Denote(t, env.data, Seen(env, F)) == OutcomeFate(x, F);
    StartSeen(cell, F);
  }

  /** The equation of a promise is the meaning of its code where that starts. */
  lemma StartSeen(c: Cell, F: Fates)
    requires HasCode(c, F)
    ensures CellRhs(c, F) == Denote(CodeOf(c), StartOf(c, F).data, Seen(StartOf(c, F), F))
  {
    if c.def.Chained? { assert Seen(c.def.handler.env, F) == Seen(c.def.handler.env.WithArg(F(c.def.parent)), F); }
  }

  lemma SeenWith(env: Env, p: nat, F: Fates)
    ensures Seen(env.WithPromise(p), F) == Seen(env, F) + [F(p)]
  {
  }

  lemma SeenArg(env: Env, f: Fate, F: Fates)
    ensures Seen(env.WithArg(f), F) == Seen(env, F)
  {
  }

  /** Going on from a promise that is settled no further than the call that made it. */
  lemma BindBelow(k: Script, env: Env, p: nat, F: Fates, f: Fate)
    requires Leq(F(p), f)
    ensures Leq(Denote(k, env.data, Seen(env.WithPromise(p), F)), Denote(k, env.data, Seen(env, F) + [f]))
  {
    SeenWith(env, p, F);
    DenoteMonotone(k, env.data, Seen(env, F) + [F(p)], Seen(env, F) + [f]);
  }

  /** What is left of code means no more than the whole. */
  lemma {:induction false} ReachesBelow(st: State, s0: Script, env0: Env, hs: seq<nat>, s: Script, env: Env)
    requires Justified(st) && Rootless(s0) && Reaches(st.cells, FateOf(st), s0, env0, hs, s, env)
    ensures Rootless(s)
    ensures Leq(Denote(s, env.data, Seen(env, FateOf(st))), Denote(s0, env0.data, Seen(env0, FateOf(st))))
    decreases s0, 0
  {
    var F := FateOf(st);
    if !(hs == [] && s0 == s && env0 == env) {
      match s0
      case If(t, a, b) => ReachesBelow(st, if t(env0.data) then a else b, env0, hs, s, env);
      case Await(r, kv, ke) =>
        var f := F(env0.proms[r]);
        SeenArg(env0, f, F);
        ReachesBelow(st, if f.Resolved? then kv else ke, env0.WithArg(f), hs, s, env);
      case Do(op, k) =>
        if Binds(op) == 0 {
          assert Seen(env0, F) + DenoteOp(op, env0.data, Seen(env0, F)) == Seen(env0, F);
          ReachesBelow(st, k, env0, hs, s, env);
        } else {
          MadeBelow(st, hs[0], op, env0);
          BindBelow(k, env0, hs[0], F, DenoteOp(op, env0.data, Seen(env0, F))[0]);
          ReachesBelow(st, k, env0.WithPromise(hs[0]), hs[1..], s, env);
          assert DenoteOp(op, env0.data, Seen(env0, F)) == [DenoteOp(op, env0.data, Seen(env0, F))[0]];
        }
      case Call(body, k) =>
        CellBelow(st, hs[0], body);
        BindBelow(k, env0, hs[0], F, Denote(body, env0.data, Seen(env0, F)));
        ReachesBelow(st, k, env0.WithPromise(hs[0]), hs[1..], s, env);
    }
  }

  /** A promise is settled no further than its bound. */
  lemma DueAtMost(st: State, c: nat, f: Settled, g: Fate)
    requires Justified(st) && c < |st.cells| && Single(st.cells[c]) && Due(st, c, f)
    requires OutAtMost(st.cells, FateOf(st), c, g)
    ensures Leq(f, g)
  {
    var x :| Ended(st.cells, FateOf(st), c, x) && OutcomeFate(x, FateOf(st)) == f;
    var d := st.cells[c].def;
    if Lawful(st.cells[c]) && (d.AsyncOf? || (d.Chained? && d.handler.Closure?)) {
      EndedBelow(st, c, CodeOf(st.cells[c]), x);
    }
  }

  // -------------------------------------------------------------------------------------------
  // Settling and following
  // -------------------------------------------------------------------------------------------

  lemma SettleJustified(st: State, p: nat, f: Settled)
    requires Justified(st) && p < |st.cells| && st.cells[p].fate.Pending? && Due(st, p, f)
    ensures Justified(Settle(st, p, f))
  {
    var st' := Settle(st, p, f);
    forall c | 0 <= c < |st'.cells| && !st'.cells[c].fate.Pending? ensures Due(st', c, st'.cells[c].fate) {
      LaterDue(st, st', c, st'.cells[c].fate);
    }
  }

  lemma SettleGrounded(st: State, p: nat, f: Settled)
    requires Grounded(st) && Justified(st) && p < |st.cells| && st.cells[p].fate.Pending? && Due(st, p, f)
    ensures Grounded(Settle(st, p, f))
  {
    var st' := Settle(st, p, f);
    forall A: set<nat>, G: Fates | Bounded(st'.cells, A, G)
      ensures forall c | c in A :: c < |st'.cells| && Leq(st'.cells[c].fate, G(c))
    {
      BoundedBefore(st, st', A, G);
      assert Among(A, |st.cells|) == A;
      var F := FateOf(st);
      assert LimitedBy(F, A, G, |st'.cells|);
      forall c | c in A ensures Leq(st'.cells[c].fate, G(c)) {
        if c == p {
          assert OutAtMost(st'.cells, F, p, G(p));
          AtMostBefore(st, st', F, p, G(p));
          DueAtMost(st, p, f, G(p));
        }
      }
    }
  }

  /** The promise that was worked on is settled or linked now. */
  lemma NoLongerBusy(st: State, busy: set<nat>, p: nat)
    requires WaitsBut(st, busy) && p < |st.cells|
    requires Single(st.cells[p]) && st.cells[p].fate.Pending? ==> Waits(st, p)
    ensures WaitsBut(st, busy - {p})
  {
  }

  /** A promise may be settled with what its equation says now. */
  lemma SettleSolving(st: State, busy: set<nat>, p: nat, f: Settled)
    requires Solving(st, busy) && p < |st.cells|
    requires st.cells[p].fate.Pending? ==> Due(st, p, f)
    ensures Solving(Settle(st, p, f), busy - {p})
  {
    var st' := Settle(st, p, f);
    if st.cells[p].fate.Pending? {
      SettleJustified(st, p, f);
      SettleGrounded(st, p, f);
      GrownSolving(st, st', busy);
    }
    NoLongerBusy(st', busy, p);
  }

  /** A promise may follow another that its code has ended with. */
  lemma AssociateSolving(st: State, busy: set<nat>, outer: nat, inner: nat)
    requires Solving(st, busy) && outer < |st.cells| && inner < |st.cells|
    requires LinkOk(st, inner, Adopt(outer))
    ensures Solving(Associate(st, outer, inner), busy - {outer})
  {
    var st', c := Associate(st, outer, inner), st.cells[inner];
    if c.fate.Pending? {
      AdoptGrown(st, outer, inner);
      SameFates(st, st');
      LaterLink(st, st', inner, Adopt(outer));
      GrownSolving(st, st', busy);
      AdoptLinked(st, outer, inner);
      NoLongerBusy(st', busy, outer);
    } else {
      SettleSolving(st, busy, outer, c.fate);
    }
  }

  lemma AdoptLinked(st: State, outer: nat, inner: nat)
    requires outer < |st.cells| && inner < |st.cells| && st.cells[inner].fate.Pending?
    ensures Linked(Associate(st, outer, inner), inner, outer)
  {
    var st', c := Associate(st, outer, inner), st.cells[inner];
    forall side | Fireable(st', inner, side) ensures Adopt(outer) in st'.cells[inner].List(side) {
      assert st'.cells[inner].List(side)[|c.List(side)|] == Adopt(outer);
    }
  }

  lemma AdoptionSolving(st: State, busy: set<nat>, outer: nat, inner: nat)
    requires Solving(st, busy) && outer < |st.cells| && inner < |st.cells|
    requires LinkOk(st, inner, Adopt(outer))
    ensures Solving(Adoption(st, outer, inner), busy - {outer})
  {
    if st.cells[outer].fate.Pending? { AssociateSolving(st, busy, outer, inner); }
    else { NoLongerBusy(st, busy, outer); }
  }

  // -------------------------------------------------------------------------------------------
  // Operations
  // -------------------------------------------------------------------------------------------

  lemma AllocSolving(st: State, busy: set<nat>)
    requires Solving(st, busy)
    ensures Solving(Alloc(st, Root, Pending), busy)
  {
    var st' := Alloc(st, Root, Pending);
    SameFates(st, st');
    GrownSolving(st, st', busy);
  }

  lemma AllocSettledSolving(st: State, busy: set<nat>, isVoid: bool, f: Settled)
    requires Solving(st, busy)
    ensures Solving(AllocSettled(st, isVoid, f), busy)
  {
    var st' := AllocSettled(st, isVoid, f);
    assert Grown(st, st');
    SameFates(st, st');
    GrownSolving(st, st', busy);
  }

  lemma RegisterSolving(st: State, busy: set<nat>, side: Side, p: nat, h: Handler)
    requires Solving(st, busy) && p < |st.cells| && HandlerOk(h, st)
    ensures Solving(Register(st, side, p, h), busy)
  {
    RegisterLists(st, side, p, h);
    RegisterGrown(st, side, p, h);
    RegisterWaits(st, side, p, h);
    OneMoreSolving(st, Register(st, side, p, h), busy);
  }

  lemma OneMoreSolving(a: State, b: State, busy: set<nat>)
    requires Solving(a, busy) && Grown(a, b) && b.gens == a.gens && |b.cells| == |a.cells| + 1
    requires b.cells[|a.cells|].fate.Pending? && Waits(b, |a.cells|)
    requires forall c :: 0 <= c < |a.cells| ==>
               b.cells[c].fate == a.cells[c].fate && b.cells[c].calls == a.cells[c].calls
    requires forall q, side, i :: 0 <= q < |a.cells| && |a.cells[q].List(side)| <= i < |b.cells[q].List(side)| ==>
               LinkOk(b, q, b.cells[q].List(side)[i])
    ensures Solving(b, busy)
  {
    SameFates(a, b);
    GrownSolving(a, b, busy);
  }

  lemma RegisterWaits(st: State, side: Side, p: nat, h: Handler)
    requires p < |st.cells|
    ensures var st' := Register(st, side, p, h);
            |st'.cells| == |st.cells| + 1 && Waits(st', |st.cells|)
  {
    var st' := Register(st, side, p, h);
    RegisterLists(st, side, p, h);
    if Takes(st.cells[p].fate, side) {
      assert st'.cells[p].List(side)[|st.cells[p].List(side)|] == Handle(h, |st.cells|);
    }
  }

  /** After a second call on a root nothing is claimed of that root any more; the others are as they were. */
  lemma RecordMeaningful(st: State, p: nat, call: CtxCall)
    requires Meaningful(st) && p < |st.cells| && st.cells[p].def.Root?
    ensures Meaningful(Record(st, p, call))
    ensures Single(Record(st, p, call).cells[p]) ==> st.cells[p].calls == [] && st.cells[p].fate.Pending?
  {
    var st' := Record(st, p, call);
    assert !st.cells[p].fate.Pending? ==> Due(st, p, st.cells[p].fate);
    assert Evolves(st, st');
    assert forall x :: FateOf(st')(x) == FateOf(st)(x);
    SameFates(st, st');
    forall q, side, i | 0 <= q < |st'.cells| && 0 <= i < |st'.cells[q].List(side)|
      ensures LinkOk(st', q, st'.cells[q].List(side)[i])
    {
      assert st'.cells[q].List(side)[i] == st.cells[q].List(side)[i];
      LaterLink(st, st', q, st.cells[q].List(side)[i]);
    }
    forall g | 0 <= g < |st.gens| ensures GenOk(st', g) { LaterGen(st, st', g); }
  }

  lemma RecordWaits(st: State, busy: set<nat>, p: nat, call: CtxCall)
    requires WaitsBut(st, busy) && p < |st.cells| && st.cells[p].def.Root?
    ensures WaitsBut(Record(st, p, call), busy + {p})
  {
    var st' := Record(st, p, call);
    assert Grown(st, st');
    forall c | 0 <= c < |st'.cells| && c !in busy + {p} && Single(st'.cells[c]) && st'.cells[c].fate.Pending?
      ensures Waits(st', c)
    {
      GrownWaits(st, st', c);
    }
  }

  /** A first call is the cause of what it settles. */
  lemma CallDue(st: State, p: nat, f: Settled)
    requires Meaningful(st) && p < |st.cells| && st.cells[p].def.Root?
    ensures Due(Record(st, p, Direct(f)), p, f)
  {
    var st1 := Record(st, p, Direct(f));
    if Single(st1.cells[p]) {
      assert st1.cells[p].calls == [Direct(f)];
      assert Ended(st1.cells, FateOf(st1), p, OutcomeOf(f));
    }
  }

  lemma FewerBusy(st: State, busy: set<nat>, more: set<nat>)
    requires Solving(st, busy) && busy <= more
    ensures Solving(st, more)
  {
  }

  lemma CtxSettleSolving(st: State, busy: set<nat>, p: nat, f: Settled)
    requires Solving(st, busy) && p < |st.cells| && HasContext(st, p)
    ensures Solving(CtxSettle(st, p, f), busy)
  {
    RecordMeaningful(st, p, Direct(f));
    RecordWaits(st, busy, p, Direct(f));
    CallDue(st, p, f);
    SettleSolving(Record(st, p, Direct(f)), busy + {p}, p, f);
    FewerBusy(CtxSettle(st, p, f), busy + {p} - {p}, busy);
  }

  lemma CtxFollowSolving(st: State, busy: set<nat>, p: nat, q: nat)
    requires Solving(st, busy) && p < |st.cells| && q < |st.cells| && HasContext(st, p)
    ensures Solving(CtxFollow(st, p, q), busy)
  {
    var st1 := Record(st, p, Following(q));
    RecordMeaningful(st, p, Following(q));
    RecordWaits(st, busy, p, Following(q));
    assert Single(st1.cells[p]) ==> st1.cells[p].calls == [Following(q)];
    AdoptionSolving(st1, busy + {p}, p, q);
    FewerBusy(CtxFollow(st, p, q), busy + {p} - {p}, busy);
  }

  lemma TasksSolving(st: State, busy: set<nat>, oneshots: seq<Handler>, permanents: seq<Task>)
    requires Solving(st, busy) && st.oneshots <= oneshots && st.permanents <= permanents
    ensures Solving(st.(oneshots := oneshots, permanents := permanents), busy)
  {
    var st' := st.(oneshots := oneshots, permanents := permanents);
    assert Grown(st, st');
    SameFates(st, st');
    GrownSolving(st, st', busy);
  }

  lemma LibraryCallSolving(op: Op, env: Env, st: State, busy: set<nat>)
    requires Solving(st, busy) && ScopedOp(op, |env.proms|) && EnvOk(env, |st.cells|)
    ensures Solving(LibraryCall(op, env, st).1, busy)
  {
    match op
    case New => AllocSolving(st, busy);
    case NewSettled(isVoid, f) => AllocSettledSolving(st, busy, isVoid, f(env.data));
    case Chain(side, r, isVoid, body) => RegisterSolving(st, busy, side, env.proms[r], Closure(isVoid, env, body));
    case SettleWith(r, f) =>
      if HasContext(st, env.proms[r]) { CtxSettleSolving(st, busy, env.proms[r], f(env.data)); }
    case Follow(r, q) =>
      if HasContext(st, env.proms[r]) { CtxFollowSolving(st, busy, env.proms[r], env.proms[q]); }
    case Oneshot(body) => TasksSolving(st, busy, st.oneshots + [Closure(true, env, body)], st.permanents);
    case Permanent(body) => TasksSolving(st, busy, st.oneshots, st.permanents + [RunCode(env, body)]);
  }

  // -------------------------------------------------------------------------------------------
  // User code
  // -------------------------------------------------------------------------------------------

  lemma SetGenSolving(st: State, busy: set<nat>, g: nat, s: GenStatus)
    requires Solving(st, busy) && g < |st.gens| && !s.SUSPENDED?
    ensures Solving(SetGen(st, g, s), if s.DONE? then busy + {st.gens[g].owner} else busy)
  {
    var st' := SetGen(st, g, s);
    SameFates(st, st');
    forall x | 0 <= x < |st'.gens| ensures GenOk(st', x) { LaterGen(st, st', x); }
    forall q, side, i | 0 <= q < |st'.cells| && 0 <= i < |st'.cells[q].List(side)|
      ensures LinkOk(st', q, st'.cells[q].List(side)[i])
    {
      LaterLink(st, st', q, st.cells[q].List(side)[i]);
    }
    forall c | 0 <= c < |st'.cells| && c != st.gens[g].owner && Waits(st, c) ensures Waits(st', c) {
      SetGenWaits(st, g, s, c);
    }
    if !s.DONE? {
      forall c | 0 <= c < |st'.cells| && Waits(st, c) ensures Waits(st', c) { SetGenWaits(st, g, s, c); }
    }
  }

  lemma SetGenWaits(st: State, g: nat, s: GenStatus, c: nat)
    requires c < |st.cells| && g < |st.gens| && Waits(st, c) && (c != st.gens[g].owner || !s.DONE?)
    ensures Waits(SetGen(st, g, s), c)
  {
    var st' := SetGen(st, g, s);
    if q: nat :| Linked(st, q, c) {
      assert Linked(st', q, c);
    } else if st.cells[c].def.AsyncOf? {
      var x :| 0 <= x < |st.gens| && st.gens[x].owner == c && !st.gens[x].status.DONE?;
      assert st'.gens[x].owner == c && !st'.gens[x].status.DONE?;
    }
  }

  /** The end of a body: its promise gets the outcome. */
  lemma FinishSolving(st: State, busy: set<nat>, g: nat, x: Outcome)
    requires Solving(st, busy) && g < |st.gens| && !x.Suspended? && (x.ReturnedPromise? ==> x.p < |st.cells|)
    requires Ended(st.cells, FateOf(st), st.gens[g].owner, x)
    ensures Solving(FinishGen(st, g, st.gens[g].owner, x), busy)
  {
    var o := st.gens[g].owner;
    var st1 := SetGen(st, g, DONE);
    SetGenSolving(st, busy, g, DONE);
    StaysEnded(st, st1, o, x);
    match x {
      case Returned(v) => SettleSolving(st1, busy + {o}, o, Resolved(v));
      case ReturnedPromise(q) => AdoptionSolving(st1, busy + {o}, o, q);
      case Threw(e) => SettleSolving(st1, busy + {o}, o, Rejected(e));
    }
    FewerBusy(FinishGen(st, g, o, x), busy + {o} - {o}, busy);
  }

  lemma SuspendSolving(st: State, busy: set<nat>, g: nat, s: GenStatus)
    requires Solving(st, busy) && g < |st.gens| && st.gens[g].status.RUNNING? && s.SUSPENDED?
    requires AtAwait(st.cells, FateOf(st), st.gens[g].owner, s.awaited, s.onValue, s.onError, s.env)
    ensures Solving(SetGen(st, g, s), busy)
  {
    var st' := SetGen(st, g, s);
    assert Grown(st, st');
    SameFates(st, st');
    StaysAtAwait(st, st', st.gens[g].owner, s.awaited, s.onValue, s.onError, s.env);
    assert GenOk(st, g);
    assert GenOk(st', g);
    GrownSolving(st, st', busy);
  }

  lemma ArmedSolving(st: State, busy: set<nat>, g: nat, p: nat)
    requires Solving(st, busy) && g < |st.gens| && p < |st.cells|
    ensures var st2 := Armed(st, g, p);
            Solving(st2, busy) && Evolves(st, st2) && st2.gens == st.gens
  {
    var st1 := Register(st, OnValue, p, Resume(g));
    RegisterSolving(st, busy, OnValue, p, Resume(g));
    RegisterGrown(st, OnValue, p, Resume(g));
    RegisterSolving(st1, busy, OnError, p, Resume(g));
    RegisterGrown(st1, OnError, p, Resume(g));
    EvolvesTrans(st, st1, Armed(st, g, p));
  }

  lemma ArmSolving(st: State, busy: set<nat>, g: nat, p: nat, env: Env, kv: Script, ke: Script)
    requires Solving(st, busy) && g < |st.gens| && st.gens[g].status.RUNNING? && p < |st.cells|
    requires AtAwait(st.cells, FateOf(st), st.gens[g].owner, p, kv, ke, env)
    ensures Solving(Arm(st, g, p, env, kv, ke), busy)
  {
    ArmedSolving(st, busy, g, p);
    var s := SUSPENDED(env, kv, ke, p, |st.cells|, |st.cells| + 1);
    assert Arm(st, g, p, env, kv, ke) == SetGen(Armed(st, g, p), g, s);
    SuspendLater(st, Armed(st, g, p), busy, g, s, Arm(st, g, p, env, kv, ke));
  }

  lemma SuspendLater(a: State, b: State, busy: set<nat>, g: nat, s: GenStatus, c: State)
    requires Solving(b, busy) && Evolves(a, b) && b.gens == a.gens
    requires g < |a.gens| && a.gens[g].status.RUNNING? && s.SUSPENDED? && c == SetGen(b, g, s)
    requires AtAwait(a.cells, FateOf(a), a.gens[g].owner, s.awaited, s.onValue, s.onError, s.env)
    ensures Solving(c, busy)
  {
    StaysAtAwait(a, b, a.gens[g].owner, s.awaited, s.onValue, s.onError, s.env);
    SuspendSolving(b, busy, g, s);
  }

  /** The promise `o` that running code serves, if any: the async function's own, or that of a handler. */
  ghost predicate Serving(st: State, o: int, cur: int, s: Script, env: Env)
    requires cur < |st.gens|
  {
    && (0 <= cur ==> o == st.gens[cur].owner && st.gens[cur].status.RUNNING?)
    && (0 <= o ==> At(st.cells, FateOf(st), o, s, env))
  }

  /** Code makes a step, on which it may make a promise; `b` is the state after it. */
  lemma StepsTo(a: State, b: State, o: nat, s0: Script, env0: Env, hs: seq<nat>, s: Script, env: Env)
    requires Evolves(a, b) && At(a.cells, FateOf(a), o, s0, env0)
    requires Reaches(b.cells, FateOf(b), s0, env0, hs, s, env)
    requires hs == [] || (|hs| == 1 && |a.cells| <= hs[0] < |b.cells|)
    ensures At(b.cells, FateOf(b), o, s, env)
  {
    EvolvesExtends(a, b);
    GoesOn(a.cells, FateOf(a), b.cells, FateOf(b), o, s0, env0, hs, s, env);
  }

  lemma LibraryCallMakes(op: Op, env: Env, st: State)
    requires ScopedOp(op, |env.proms|) && EnvOk(env, |st.cells|)
    ensures var r := LibraryCall(op, env, st);
            if Binds(op) == 0 then r.0 == env
            else
              && r.0 == env.WithPromise(|st.cells|) && |st.cells| < |r.1.cells|
              && MadeBy(r.1.cells[|st.cells|].def, op, env)
  {
  }

  /** The code that is served goes on after a library call ... */
  lemma DoServing(st: State, o: int, cur: int, op: Op, k: Script, env: Env)
    requires ScopedOp(op, |env.proms|) && EnvOk(env, |st.cells|)
    requires cur < |st.gens| && Serving(st, o, cur, Do(op, k), env) && Evolves(st, LibraryCall(op, env, st).1)
    ensures var r := LibraryCall(op, env, st);
            Serving(r.1, o, cur, k, r.0)
  {
    var r := LibraryCall(op, env, st);
    if 0 <= o {
      LibraryCallMakes(op, env, st);
      var hs: seq<nat> := if Binds(op) == 0 then [] else [|st.cells|];
      assert Reaches(r.1.cells, FateOf(r.1), k, r.0, [], k, r.0);
      StepsTo(st, r.1, o, Do(op, k), env, hs, k, r.0);
    }
  }

  /** ... and after the call of an async function. */
  lemma CallServing(a: State, b: State, o: int, cur: int, body: Script, k: Script, env: Env)
    requires cur < |a.gens| && Serving(a, o, cur, Call(body, k), env)
    requires Evolves(a, b) && (0 <= cur ==> b.gens[cur] == a.gens[cur])
    requires |a.cells| < |b.cells| && b.cells[|a.cells|].def == AsyncOf(env, body)
    ensures Serving(b, o, cur, k, env.WithPromise(|a.cells|))
  {
    if 0 <= o {
      var env1 := env.WithPromise(|a.cells|);
      assert Reaches(b.cells, FateOf(b), k, env1, [], k, env1);
      StepsTo(a, b, o, Call(body, k), env, [|a.cells|], k, env1);
    }
  }

  lemma IfServing(st: State, o: int, cur: int, s: Script, env: Env)
    requires cur < |st.gens| && s.If? && Serving(st, o, cur, s, env)
    ensures Serving(st, o, cur, if s.test(env.data) then s.yes else s.no, env)
  {
    if 0 <= o {
      var t := if s.test(env.data) then s.yes else s.no;
      assert Reaches(st.cells, FateOf(st), t, env, [], t, env);
      StepsTo(st, st, o, s, env, [], t, env);
    }
  }

  lemma DoSolving(op: Op, k: Script, env: Env, cur: int, st: State, busy: set<nat>, o: int)
    requires Inv(st) && Solving(st, busy) && EnvOk(env, |st.cells|) && cur < |st.gens| && ScopedOp(op, |env.proms|)
    requires Serving(st, o, cur, Do(op, k), env)
    ensures var r := LibraryCall(op, env, st);
            Inv(r.1) && Solving(r.1, busy) && cur < |r.1.gens| && Serving(r.1, o, cur, k, r.0)
  {
    LibraryCallInv(op, env, st);
    LibraryCallSolving(op, env, st, busy);
    DoServing(st, o, cur, op, k, env);
  }

  lemma AwaitServing(st: State, busy: set<nat>, o: int, cur: nat, r: nat, kv: Script, ke: Script, env: Env)
    requires Solving(st, busy) && cur < |st.gens| && Serving(st, o, cur, Await(r, kv, ke), env)
    requires r < |env.proms| && env.proms[r] < |st.cells|
    ensures Solving(Arm(st, cur, env.proms[r], env, kv, ke), busy)
  {
    assert AtAwait(st.cells, FateOf(st), o, env.proms[r], kv, ke, env);
    ArmSolving(st, busy, cur, env.proms[r], env, kv, ke);
  }

  /** Any code, in any order, keeps the promises solving; and if it serves a promise it ends as that
      promise's own code does, step by step. */
  lemma {:induction false} ExecSolving(s: Script, env: Env, cur: int, st: State, busy: set<nat>, o: int)
    requires Inv(st) && Solving(st, busy) && EnvOk(env, |st.cells|)
    requires cur < |st.gens| && Scoped(s, |env.proms|, 0 <= cur)
    requires Serving(st, o, cur, s, env)
    ensures RanSolving(Exec(s, env, cur, st), busy, o)
    decreases s, 1
  {
    match s
    case If(t, a, b) =>
      IfServing(st, o, cur, s, env);
      ExecSolving(if t(env.data) then a else b, env, cur, st, busy, o);
    case Do(op, k) => ExecDoSolving(op, k, env, cur, st, busy, o);
    case Call(body, k) => ExecCallSolving(body, k, env, cur, st, busy, o);
    case Await(r, kv, ke) => AwaitServing(st, busy, o, cur, r, kv, ke, env);
    case _ =>
      if 0 <= o {
        assert HasCode(st.cells[o], FateOf(st));
        assert Ended(st.cells, FateOf(st), o, EndOf(s, env));
      }
  }

  ghost predicate RanSolving(r: (State, Outcome), busy: set<nat>, o: int) {
    Solving(r.0, busy) && (0 <= o && !r.1.Suspended? ==> Ended(r.0.cells, FateOf(r.0), o, r.1))
  }

  lemma {:induction false} ExecDoSolving(op: Op, k: Script, env: Env, cur: int, st: State, busy: set<nat>, o: int)
    requires Inv(st) && Solving(st, busy) && EnvOk(env, |st.cells|)
    requires cur < |st.gens| && Scoped(Do(op, k), |env.proms|, 0 <= cur)
    requires Serving(st, o, cur, Do(op, k), env)
    ensures RanSolving(Exec(Do(op, k), env, cur, st), busy, o)
    decreases Do(op, k), 0
  {
    var r := LibraryCall(op, env, st);
    DoSolving(op, k, env, cur, st, busy, o);
    ExecSolving(k, r.0, cur, r.1, busy, o);
  }

  lemma {:induction false} ExecCallSolving(body: Script, k: Script, env: Env, cur: int, st: State, busy: set<nat>,
                                           o: int)
    requires Inv(st) && Solving(st, busy) && EnvOk(env, |st.cells|)
    requires cur < |st.gens| && Scoped(Call(body, k), |env.proms|, 0 <= cur)
    requires Serving(st, o, cur, Call(body, k), env)
    ensures RanSolving(Exec(Call(body, k), env, cur, st), busy, o)
    decreases Call(body, k), 0
  {
    var st1 := CallAsync(st, env, body);
    CallAsyncInv(st, env, body);
    CallAsyncSolving(st, env, body, busy);
    CallServing(st, st1, o, cur, body, k, env);
    ExecSolving(k, env.WithPromise(|st.cells|), cur, st1, busy, o);
  }

  lemma StartAsyncSolving(st: State, env: Env, body: Script, busy: set<nat>)
    requires Solving(st, busy)
    ensures var st1 := StartAsync(st, env, body);
            Solving(st1, busy) && Serving(st1, |st.cells|, |st.gens|, body, env)
  {
    var st1 := StartAsync(st, env, body);
    assert Grown(st, st1);
    SameFates(st, st1);
    assert st1.gens[|st.gens|].owner == |st.cells| && st1.gens[|st.gens|].status.RUNNING?;
    assert Waits(st1, |st.cells|);
    GrownSolving(st, st1, busy);
    assert MadeAfter([], |st.cells|, |st1.cells|) && Reaches(st1.cells, FateOf(st1), body, env, [], body, env);
  }

  lemma {:induction false} CallAsyncSolving(st: State, env: Env, body: Script, busy: set<nat>)
    requires Inv(st) && Solving(st, busy) && EnvOk(env, |st.cells|) && Scoped(body, |env.proms|, true)
    ensures Solving(CallAsync(st, env, body), busy)
    ensures CallAsync(st, env, body).cells[|st.cells|].def == AsyncOf(env, body)
    decreases body, 2
  {
    var st1, g := StartAsync(st, env, body), |st.gens|;
    StartAsyncInv(st, env, body);
    StartAsyncSolving(st, env, body, busy);
    ExecInv(body, env, g, st1);
    ExecSolving(body, env, g, st1, busy, |st.cells|);
    var r := Exec(body, env, g, st1);
    FinishGenInv(r.0, g, |st.cells|, r.1);
    if !r.1.Suspended? { FinishSolving(r.0, busy, g, r.1); }
  }
}
