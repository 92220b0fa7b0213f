/** What every operation of the promise engine keeps. */
module Invariant {
  import opened Scripts
  import opened Promises

  /** A settled promise calls back one of its two lists; a pending one may still call back either. */
  predicate Fireable(st: State, p: nat, side: Side)
    requires p < |st.cells|
  {
    st.cells[p].fate.Pending? || Way(st.cells[p].fate) == side
  }

  /** The pending callback queue: no promise twice, exactly the flagged ones, all of them settled; a
      settled promise outside the queue has nothing left to call back. */
  ghost predicate QueueInv(st: State) {
    && (forall i :: 0 <= i < |st.queue| ==>
          st.queue[i] < |st.cells| && !st.cells[st.queue[i]].fate.Pending? && st.cells[st.queue[i]].pendingCallback)
    && (forall i, j :: 0 <= i < j < |st.queue| ==> st.queue[i] != st.queue[j])
    && (forall p :: 0 <= p < |st.cells| && st.cells[p].pendingCallback ==> p in st.queue)
    && (forall p :: 0 <= p < |st.cells| && !st.cells[p].fate.Pending? && !st.cells[p].pendingCallback ==>
          st.cells[p].fulfilled == [] && st.cells[p].rejected == [])
  }

  /** A wrapper in list `side` of `p` refers to what exists, and its child says where it was registered. */
  ghost predicate WrapperOk(st: State, p: nat, side: Side, w: Wrapper) {
    match w
    case Adopt(o) => o < |st.cells|
    case Handle(h, c) => c < |st.cells| && st.cells[c].def == Chained(side, p, h) && HandlerOk(h, st)
  }

  /** Handlers stand in their list in registration order. */
  ghost predicate Ordered(ws: seq<Wrapper>) {
    forall i, j :: 0 <= i < j < |ws| && ws[i].Handle? && ws[j].Handle? ==> ws[i].child < ws[j].child
  }

  ghost predicate ListOk(st: State, p: nat, side: Side)
    requires p < |st.cells|
  {
    var ws := st.cells[p].List(side);
    Ordered(ws) && forall i :: 0 <= i < |ws| ==> WrapperOk(st, p, side, ws[i])
  }

  ghost predicate ListsInv(st: State) {
    && (forall p, side :: 0 <= p < |st.cells| ==> ListOk(st, p, side))
    && (forall i :: 0 <= i < |st.oneshots| ==> st.oneshots[i].Closure? && HandlerOk(st.oneshots[i], st))
    && (forall i :: 0 <= i < |st.permanents| ==> TaskOk(st.permanents[i], st))
  }

  /** Child `c` was registered before every handler of `ws`. */
  ghost predicate Precedes(c: nat, ws: seq<Wrapper>) {
    forall i :: 0 <= i < |ws| && ws[i].Handle? ==> c < ws[i].child
  }

  /** A log entry: the handler of `child` ran with the fate that `promise` has and will keep. */
  ghost predicate EntryOk(st: State, e: Entry) {
    && e.promise < |st.cells| && e.child < |st.cells|
    && st.cells[e.promise].fate == e.arg
    && st.cells[e.child].def.Chained?
    && st.cells[e.child].def.parent == e.promise && st.cells[e.child].def.side == Way(e.arg)
    && Precedes(e.child, st.cells[e.promise].List(Way(e.arg)))
  }

  /** Handlers of one promise run in registration order, hence none twice. */
  ghost predicate LogInv(st: State) {
    && (forall i :: 0 <= i < |st.log| ==> EntryOk(st, st.log[i]))
    && (forall i, j :: 0 <= i < j < |st.log| && st.log[i].promise == st.log[j].promise ==>
          st.log[i].child < st.log[j].child)
  }

  /** No registration is lost: while its promise is pending, and until it has run when the promise
      settles its way, the handler of `c` is in its list. */
  ghost predicate Accounted(st: State, c: nat)
    requires c < |st.cells|
  {
    var d := st.cells[c].def;
    d.Chained? ==>
      && d.parent < c
      && (st.cells[d.parent].fate.Pending? ==> Handle(d.handler, c) in st.cells[d.parent].List(d.side))
      && (!st.cells[d.parent].fate.Pending? && Way(st.cells[d.parent].fate) == d.side ==>
            || Handle(d.handler, c) in st.cells[d.parent].List(d.side)
            || Entry(d.parent, c, st.cells[d.parent].fate) in st.log)
  }

  ghost predicate AccountInv(st: State) {
    forall c :: 0 <= c < |st.cells| ==> Accounted(st, c)
  }

  /** A wrapper that can still fire and resumes `g` finds `g` suspended, and is one of the two that
      its current await armed. */
  ghost predicate ArmedOk(st: State, p: nat, side: Side, w: Wrapper)
    requires p < |st.cells|
  {
    w.Handle? && w.handler.Resume? && Fireable(st, p, side) ==>
      && w.handler.gen < |st.gens|
      && var s := st.gens[w.handler.gen].status;
      && s.SUSPENDED?
      && s.awaited == p
      && w.child == (if side.OnValue? then s.nextChild else s.throwChild)
  }

  /** A suspended generator waits on both lists of the promise it awaits, and neither wrapper has run. */
  ghost predicate SuspendedOk(st: State, g: nat)
    requires g < |st.gens|
  {
    && FrameOk(st.gens[g], |st.cells|)
    && var s := st.gens[g].status;
    && (s.SUSPENDED? ==>
          && st.cells[s.nextChild].def == Chained(OnValue, s.awaited, Resume(g))
          && st.cells[s.throwChild].def == Chained(OnError, s.awaited, Resume(g))
          && (forall i :: 0 <= i < |st.log| ==> st.log[i].child != s.nextChild && st.log[i].child != s.throwChild))
  }

  ghost predicate ArmedInv(st: State, p: nat, side: Side)
    requires p < |st.cells|
  {
    forall i :: 0 <= i < |st.cells[p].List(side)| ==> ArmedOk(st, p, side, st.cells[p].List(side)[i])
  }

  ghost predicate GenInv(st: State) {
    && (forall p, side :: 0 <= p < |st.cells| ==> ArmedInv(st, p, side))
    && (forall g :: 0 <= g < |st.gens| ==> SuspendedOk(st, g))
  }

  ghost predicate BaseInv(st: State) {
    QueueInv(st) && ListsInv(st) && LogInv(st) && AccountInv(st)
  }

  ghost predicate Inv(st: State) {
    BaseInv(st) && GenInv(st)
  }

  /** No generator is running, as between two callbacks. */
  ghost predicate Idle(st: State) {
    forall g :: 0 <= g < |st.gens| ==> st.gens[g].status != RUNNING
  }

  /** History is only ever extended: a settled promise keeps its fate, a promise its origin, a log entry
      its place. */
  ghost predicate Evolves(a: State, b: State) {
    && |a.cells| <= |b.cells| && |a.gens| <= |b.gens|
    && (forall p :: 0 <= p < |a.cells| ==>
          && b.cells[p].def == a.cells[p].def
          && a.cells[p].calls <= b.cells[p].calls
          && (a.cells[p].fate.Pending? || b.cells[p].fate == a.cells[p].fate))
    && (forall g :: 0 <= g < |a.gens| ==> b.gens[g].owner == a.gens[g].owner)
    && a.log <= b.log && a.oneshots <= b.oneshots && a.permanents <= b.permanents
  }

  lemma EvolvesTrans(a: State, b: State, c: State)
    requires Evolves(a, b) && Evolves(b, c)
    ensures Evolves(a, c)
  {
  }

  // -------------------------------------------------------------------------------------------
  // Growth: cells, fates and list ends are added, nothing is run
  // -------------------------------------------------------------------------------------------

  ghost predicate ListGrown(a: State, b: State, p: nat, side: Side)
    requires p < |a.cells| <= |b.cells|
  {
    var us, ws := a.cells[p].List(side), b.cells[p].List(side);
    && us <= ws
    && forall i :: |us| <= i < |ws| ==>
         WrapperOk(b, p, side, ws[i]) && (ws[i].Handle? ==> |a.cells| <= ws[i].child && i == |ws| - 1)
  }

  ghost predicate Grown(a: State, b: State) {
    && Evolves(a, b)
    && (forall p, side :: 0 <= p < |a.cells| ==> ListGrown(a, b, p, side))
    && (forall p, side :: |a.cells| <= p < |b.cells| ==> b.cells[p].List(side) == [])
    && b.log == a.log
  }

  lemma GrownLists(a: State, b: State)
    requires ListsInv(a) && Grown(a, b)
    requires forall i :: |a.oneshots| <= i < |b.oneshots| ==> b.oneshots[i].Closure? && HandlerOk(b.oneshots[i], b)
    requires forall i :: |a.permanents| <= i < |b.permanents| ==> TaskOk(b.permanents[i], b)
    ensures ListsInv(b)
  {
    forall p, side | 0 <= p < |b.cells| ensures ListOk(b, p, side) {
      if p < |a.cells| {
        assert ListOk(a, p, side) && ListGrown(a, b, p, side);
        var us, ws := a.cells[p].List(side), b.cells[p].List(side);
        assert forall i :: 0 <= i < |us| ==> ws[i] == us[i];
        assert forall i :: 0 <= i < |us| ==> WrapperOk(a, p, side, us[i]);
      }
    }
  }

  lemma GrownLog(a: State, b: State)
    requires ListsInv(a) && LogInv(a) && Grown(a, b)
    ensures LogInv(b)
  {
    forall i | 0 <= i < |b.log| ensures EntryOk(b, b.log[i]) {
      var e := a.log[i];
      assert EntryOk(a, e) && ListGrown(a, b, e.promise, Way(e.arg));
      var us, ws := a.cells[e.promise].List(Way(e.arg)), b.cells[e.promise].List(Way(e.arg));
      assert forall i :: 0 <= i < |us| ==> ws[i] == us[i];
    }
  }

  lemma GrownAccount(a: State, b: State)
    requires AccountInv(a) && Grown(a, b)
    requires forall c :: |a.cells| <= c < |b.cells| ==> Accounted(b, c)
    ensures AccountInv(b)
  {
    forall c | 0 <= c < |b.cells| ensures Accounted(b, c) {
      if c < |a.cells| {
        assert Accounted(a, c);
        var d := a.cells[c].def;
        if d.Chained? {
          assert ListGrown(a, b, d.parent, d.side);
          var us, ws := a.cells[d.parent].List(d.side), b.cells[d.parent].List(d.side);
          if Handle(d.handler, c) in us { assert Handle(d.handler, c) in ws; }
        }
      }
    }
  }

  lemma GrownSuspended(a: State, b: State, g: nat)
    requires g < |a.gens| && SuspendedOk(a, g) && Grown(a, b) && b.gens[g] == a.gens[g]
    ensures SuspendedOk(b, g)
  {
  }

  /** Wrappers that were there stay armed when no generator leaves its suspension. */
  lemma GrownArmed(a: State, b: State, p: nat, side: Side)
    requires p < |a.cells| && ArmedInv(a, p, side) && Grown(a, b)
    requires forall g :: 0 <= g < |a.gens| && a.gens[g].status.SUSPENDED? ==> b.gens[g] == a.gens[g]
    requires forall i :: |a.cells[p].List(side)| <= i < |b.cells[p].List(side)| ==>
               ArmedOk(b, p, side, b.cells[p].List(side)[i])
    ensures ArmedInv(b, p, side)
  {
    assert ListGrown(a, b, p, side);
    var us, ws := a.cells[p].List(side), b.cells[p].List(side);
    forall i | 0 <= i < |ws| ensures ArmedOk(b, p, side, ws[i]) {
      if i < |us| { assert ws[i] == us[i] && ArmedOk(a, p, side, us[i]); }
    }
  }

  /** Growth that registers no resumption and changes no generator. */
  lemma GrownInv(a: State, b: State)
    requires Inv(a) && Grown(a, b) && QueueInv(b)
    requires |b.gens| >= |a.gens|
    requires forall g :: 0 <= g < |a.gens| ==> b.gens[g] == a.gens[g]
    requires forall g :: |a.gens| <= g < |b.gens| ==> SuspendedOk(b, g)
    requires forall i :: |a.oneshots| <= i < |b.oneshots| ==> b.oneshots[i].Closure? && HandlerOk(b.oneshots[i], b)
    requires forall i :: |a.permanents| <= i < |b.permanents| ==> TaskOk(b.permanents[i], b)
    requires forall c :: |a.cells| <= c < |b.cells| ==> Accounted(b, c)
    requires forall p, side, i :: 0 <= p < |a.cells| && |a.cells[p].List(side)| <= i < |b.cells[p].List(side)| ==>
               !b.cells[p].List(side)[i].Handle? || !b.cells[p].List(side)[i].handler.Resume?
    ensures Inv(b)
  {
    GrownLists(a, b);
    GrownLog(a, b);
    GrownAccount(a, b);
    forall g | 0 <= g < |b.gens| ensures SuspendedOk(b, g) {
      if g < |a.gens| { GrownSuspended(a, b, g); }
    }
    forall p, side | 0 <= p < |b.cells| ensures ArmedInv(b, p, side) {
      if p < |a.cells| { GrownArmed(a, b, p, side); }
    }
  }

  // -------------------------------------------------------------------------------------------
  // Operations
  // -------------------------------------------------------------------------------------------

  lemma AllocInv(st: State, def: Def, fate: Fate)
    requires Inv(st) && !def.Chained?
    ensures Inv(Alloc(st, def, fate)) && Evolves(st, Alloc(st, def, fate))
  {
    GrownInv(st, Alloc(st, def, fate));
  }

  lemma SettleQueue(st: State, p: nat, f: Settled)
    requires QueueInv(st) && p < |st.cells|
    ensures QueueInv(Settle(st, p, f))
  {
    var st' := Settle(st, p, f);
    if st.cells[p].fate.Pending? {
      assert st'.queue[|st.queue|] == p;
      forall q | 0 <= q < |st'.cells| && st'.cells[q].pendingCallback ensures q in st'.queue {
        if q != p { assert q in st.queue; }
      }
    }
  }

  lemma SettleInv(st: State, p: nat, f: Settled)
    requires Inv(st) && p < |st.cells|
    ensures Inv(Settle(st, p, f)) && Evolves(st, Settle(st, p, f))
  {
    SettleQueue(st, p, f);
    if st.cells[p].fate.Pending? { GrownInv(st, Settle(st, p, f)); }
  }

  lemma AdoptGrown(st: State, outer: nat, inner: nat)
    requires outer < |st.cells| && inner < |st.cells| && st.cells[inner].fate.Pending?
    ensures Grown(st, Associate(st, outer, inner))
    ensures QueueInv(st) ==> QueueInv(Associate(st, outer, inner))
  {
    var st' := Associate(st, outer, inner);
    forall q, side | 0 <= q < |st.cells| ensures ListGrown(st, st', q, side) {
      var us, ws := st.cells[q].List(side), st'.cells[q].List(side);
      assert ws == us || (ws == us + [Adopt(outer)] && ws[|us|] == Adopt(outer));
    }
  }

  lemma AssociateInv(st: State, outer: nat, inner: nat)
    requires Inv(st) && outer < |st.cells| && inner < |st.cells|
    ensures Inv(Associate(st, outer, inner)) && Evolves(st, Associate(st, outer, inner))
  {
    if st.cells[inner].fate.Pending? {
      AdoptGrown(st, outer, inner);
      GrownInv(st, Associate(st, outer, inner));
    } else {
      SettleInv(st, outer, st.cells[inner].fate);
    }
  }

  lemma RecordInv(st: State, p: nat, call: CtxCall)
    requires Inv(st) && p < |st.cells|
    ensures Inv(Record(st, p, call)) && Evolves(st, Record(st, p, call))
  {
    GrownInv(st, Record(st, p, call));
  }

  lemma AllocSettledInv(st: State, isVoid: bool, f: Settled)
    requires Inv(st)
    ensures Inv(AllocSettled(st, isVoid, f)) && Evolves(st, AllocSettled(st, isVoid, f))
  {
    AllocInv(st, Given(f), f);
    AllocInv(st, Given(f), Pending);
    SettleInv(Alloc(st, Given(f), Pending), |st.cells|, f);
  }

  lemma AdoptionInv(st: State, outer: nat, inner: nat)
    requires Inv(st) && outer < |st.cells| && inner < |st.cells|
    ensures Inv(Adoption(st, outer, inner)) && Evolves(st, Adoption(st, outer, inner))
  {
    AssociateInv(st, outer, inner);
  }

  /** Whether `then`/`_catch` on a promise of fate `f` registers anything at all. */
  predicate Takes(f: Fate, side: Side) {
    f.Pending? || Way(f) == side
  }

  /** `then`/`_catch` put the new handler, under the newest promise, at the end of one list. */
  lemma RegisterLists(st: State, side: Side, p: nat, h: Handler)
    requires p < |st.cells|
    ensures var st' := Register(st, side, p, h);
            && |st'.cells| == |st.cells| + 1
            && st'.cells[|st.cells|] == FreshCell(Chained(side, p, h), Pending)
            && (forall q :: 0 <= q < |st.cells| ==>
                  && st'.cells[q].fate == st.cells[q].fate && st'.cells[q].def == st.cells[q].def
                  && st'.cells[q].calls == st.cells[q].calls)
            && (forall q, sd :: 0 <= q < |st.cells| ==>
                  st'.cells[q].List(sd) == st.cells[q].List(sd)
                    + if q == p && sd == side && Takes(st.cells[p].fate, side) then [Handle(h, |st.cells|)] else [])
            && st'.gens == st.gens && st'.log == st.log
            && st'.oneshots == st.oneshots && st'.permanents == st.permanents
  {
  }

  lemma FlagQueue(st: State, p: nat)
    requires QueueInv(st) && p < |st.cells| && !st.cells[p].fate.Pending? && !st.cells[p].pendingCallback
    ensures QueueInv(SetCell(st, p, st.cells[p].(pendingCallback := true)).(queue := st.queue + [p]))
  {
    var st' := SetCell(st, p, st.cells[p].(pendingCallback := true)).(queue := st.queue + [p]);
    assert st'.queue[|st.queue|] == p;
    assert p !in st.queue;
    forall q | 0 <= q < |st'.cells| && st'.cells[q].pendingCallback ensures q in st'.queue {
      if q != p { assert st.cells[q].pendingCallback && q in st.queue; }
    }
  }

  lemma PushQueue(st: State, p: nat, side: Side, ws: seq<Wrapper>)
    requires QueueInv(st) && p < |st.cells| && (st.cells[p].fate.Pending? || st.cells[p].pendingCallback)
    ensures QueueInv(SetCell(st, p, st.cells[p].WithList(side, ws)))
  {
    var st' := SetCell(st, p, st.cells[p].WithList(side, ws));
    forall q | 0 <= q < |st'.cells| && st'.cells[q].pendingCallback ensures q in st'.queue {
      assert st.cells[q].pendingCallback;
    }
  }

  lemma AllocQueue(st: State, def: Def)
    requires QueueInv(st)
    ensures QueueInv(Alloc(st, def, Pending))
  {
    var st' := Alloc(st, def, Pending);
    forall q | 0 <= q < |st'.cells| && st'.cells[q].pendingCallback ensures q in st'.queue {
      assert st.cells[q].pendingCallback;
    }
  }

  lemma RegisterQueue(st: State, side: Side, p: nat, h: Handler)
    requires QueueInv(st) && p < |st.cells|
    ensures QueueInv(Register(st, side, p, h))
  {
    var st1 := Alloc(st, Chained(side, p, h), Pending);
    var c := st1.cells[p];
    AllocQueue(st, Chained(side, p, h));
    if Takes(c.fate, side) {
      var ws := c.List(side) + [Handle(h, |st.cells|)];
      if !c.fate.Pending? && !c.pendingCallback {
        FlagQueue(st1, p);
        PushQueue(SetCell(st1, p, c.(pendingCallback := true)).(queue := st1.queue + [p]), p, side, ws);
      } else {
        PushQueue(st1, p, side, ws);
      }
    }
  }

  lemma RegisterGrown(st: State, side: Side, p: nat, h: Handler)
    requires p < |st.cells| && HandlerOk(h, st)
    ensures Grown(st, Register(st, side, p, h)) && Accounted(Register(st, side, p, h), |st.cells|)
  {
    var st' := Register(st, side, p, h);
    RegisterLists(st, side, p, h);
    if Takes(st.cells[p].fate, side) {
      assert st'.cells[p].List(side)[|st.cells[p].List(side)|] == Handle(h, |st.cells|);
    }
  }

  lemma RegisterBase(st: State, side: Side, p: nat, h: Handler)
    requires BaseInv(st) && p < |st.cells| && HandlerOk(h, st)
    ensures BaseInv(Register(st, side, p, h)) && Evolves(st, Register(st, side, p, h))
  {
    var st' := Register(st, side, p, h);
    RegisterLists(st, side, p, h);
    RegisterGrown(st, side, p, h);
    RegisterQueue(st, side, p, h);
    GrownLists(st, st');
    GrownLog(st, st');
    GrownAccount(st, st');
  }

  lemma RegisterInv(st: State, side: Side, p: nat, h: Handler)
    requires Inv(st) && p < |st.cells| && HandlerOk(h, st) && h.Closure?
    ensures Inv(Register(st, side, p, h)) && Evolves(st, Register(st, side, p, h))
  {
    RegisterLists(st, side, p, h);
    RegisterGrown(st, side, p, h);
    RegisterQueue(st, side, p, h);
    GrownInv(st, Register(st, side, p, h));
  }

  /** Changing the status of one generator concerns `GenInv` alone. */
  lemma SetGenBase(st: State, g: nat, s: GenStatus)
    requires BaseInv(st) && g < |st.gens|
    ensures BaseInv(SetGen(st, g, s)) && Evolves(st, SetGen(st, g, s))
  {
    var st' := SetGen(st, g, s);
    forall p, side | 0 <= p < |st.cells| ensures ListOk(st', p, side) { assert ListOk(st, p, side); }
    forall i | 0 <= i < |st.log| ensures EntryOk(st', st.log[i]) { assert EntryOk(st, st.log[i]); }
    forall c | 0 <= c < |st.cells| ensures Accounted(st', c) { assert Accounted(st, c); }
  }

  /** The cells after an await: two new promises, and one new wrapper at the end of each live list of `p`. */
  lemma ArmedLists(st: State, g: nat, p: nat)
    requires p < |st.cells|
    ensures var st', n := Armed(st, g, p), |st.cells|;
            && |st'.cells| == n + 2
            && st'.cells[n] == FreshCell(Chained(OnValue, p, Resume(g)), Pending)
            && st'.cells[n + 1] == FreshCell(Chained(OnError, p, Resume(g)), Pending)
            && (forall q :: 0 <= q < n ==> st'.cells[q].fate == st.cells[q].fate)
            && (forall q, sd :: 0 <= q < n ==>
                  st'.cells[q].List(sd) == st.cells[q].List(sd)
                    + if q == p && Takes(st.cells[p].fate, sd)
                      then [Handle(Resume(g), if sd.OnValue? then n else n + 1)] else [])
            && st'.gens == st.gens && st'.log == st.log
  {
    RegisterLists(st, OnValue, p, Resume(g));
    RegisterLists(Register(st, OnValue, p, Resume(g)), OnError, p, Resume(g));
  }

  lemma ArmLists(st: State, g: nat, p: nat, env: Env, kv: Script, ke: Script)
    requires g < |st.gens| && p < |st.cells|
    ensures var st', n := Arm(st, g, p, env, kv, ke), |st.cells|;
            && st'.cells == Armed(st, g, p).cells && st'.log == st.log
            && st'.gens == st.gens[g := Coroutine(st.gens[g].owner, SUSPENDED(env, kv, ke, p, n, n + 1))]
  {
    ArmedLists(st, g, p);
  }

  lemma RegisterBoth(st: State, g: nat, p: nat)
    requires BaseInv(st) && g < |st.gens| && p < |st.cells|
    ensures var st2 := Armed(st, g, p);
            BaseInv(st2) && Evolves(st, st2) && st2.gens == st.gens
  {
    var st1 := Register(st, OnValue, p, Resume(g));
    RegisterBase(st, OnValue, p, Resume(g));
    assert st1.gens == st.gens;
    RegisterBase(st1, OnError, p, Resume(g));
    EvolvesTrans(st, st1, Register(st1, OnError, p, Resume(g)));
  }

  lemma ArmBase(st: State, g: nat, p: nat, env: Env, kv: Script, ke: Script)
    requires BaseInv(st) && g < |st.gens| && p < |st.cells|
    ensures BaseInv(Arm(st, g, p, env, kv, ke)) && Evolves(st, Arm(st, g, p, env, kv, ke))
  {
    var st2, s := Armed(st, g, p), SUSPENDED(env, kv, ke, p, |st.cells|, |st.cells| + 1);
    RegisterBoth(st, g, p);
    SetGenBase(st2, g, s);
    EvolvesTrans(st, st2, SetGen(st2, g, s));
    assert Arm(st, g, p, env, kv, ke) == SetGen(st2, g, s);
  }

  lemma ArmArmed(st: State, g: nat, p: nat, env: Env, kv: Script, ke: Script, q: nat, side: Side)
    requires g < |st.gens| && st.gens[g].status.RUNNING? && p < |st.cells|
    requires q < |st.cells| && ArmedInv(st, q, side)
    ensures var st' := Arm(st, g, p, env, kv, ke);
            q < |st'.cells| && ArmedInv(st', q, side)
  {
    var st' := Arm(st, g, p, env, kv, ke);
    ArmLists(st, g, p, env, kv, ke);
    ArmedLists(st, g, p);
    var us, ws := st.cells[q].List(side), st'.cells[q].List(side);
    forall i | 0 <= i < |ws| ensures ArmedOk(st', q, side, ws[i]) {
      if i < |us| { assert ws[i] == us[i] && ArmedOk(st, q, side, us[i]); }
    }
  }

  /** Await: the generator leaves RUNNING with one armed wrapper on each live list of the promise. */
  lemma ArmInv(st: State, g: nat, p: nat, env: Env, kv: Script, ke: Script)
    requires Inv(st) && g < |st.gens| && st.gens[g].status.RUNNING? && p < |st.cells|
    requires EnvOk(env, |st.cells|) && Scoped(kv, |env.proms|, true) && Scoped(ke, |env.proms|, true)
    ensures Inv(Arm(st, g, p, env, kv, ke)) && Evolves(st, Arm(st, g, p, env, kv, ke))
  {
    var st' := Arm(st, g, p, env, kv, ke);
    ArmLists(st, g, p, env, kv, ke);
    ArmedLists(st, g, p);
    ArmBase(st, g, p, env, kv, ke);
    forall q, side | 0 <= q < |st'.cells| ensures ArmedInv(st', q, side) {
      if q < |st.cells| { ArmArmed(st, g, p, env, kv, ke, q, side); }
    }
    forall x | 0 <= x < |st'.gens| ensures SuspendedOk(st', x) {
      ArmSuspended(st, g, p, env, kv, ke, x);
    }
  }

  lemma ArmSuspended(st: State, g: nat, p: nat, env: Env, kv: Script, ke: Script, x: nat)
    requires LogInv(st) && g < |st.gens| && p < |st.cells| && x < |st.gens| && SuspendedOk(st, x)
    requires EnvOk(env, |st.cells|) && Scoped(kv, |env.proms|, true) && Scoped(ke, |env.proms|, true)
    requires Evolves(st, Arm(st, g, p, env, kv, ke))
    ensures x < |Arm(st, g, p, env, kv, ke).gens| && SuspendedOk(Arm(st, g, p, env, kv, ke), x)
  {
    ArmLists(st, g, p, env, kv, ke);
    ArmedLists(st, g, p);
    assert forall i :: 0 <= i < |st.log| ==> EntryOk(st, st.log[i]);
  }

  lemma StartAsyncInv(st: State, env: Env, body: Script)
    requires Inv(st)
    ensures Inv(StartAsync(st, env, body)) && Evolves(st, StartAsync(st, env, body))
  {
    GrownInv(st, StartAsync(st, env, body));
  }

  /** A generator that is not suspended may become DONE (or RUNNING): nothing live refers to it. */
  lemma LeaveInv(st: State, g: nat, s: GenStatus)
    requires Inv(st) && g < |st.gens| && !st.gens[g].status.SUSPENDED? && !s.SUSPENDED?
    ensures Inv(SetGen(st, g, s)) && Evolves(st, SetGen(st, g, s))
  {
    var st' := SetGen(st, g, s);
    SetGenBase(st, g, s);
    forall p, side | 0 <= p < |st.cells| ensures ArmedInv(st', p, side) {
      assert ArmedInv(st, p, side);
      forall i | 0 <= i < |st.cells[p].List(side)| ensures ArmedOk(st', p, side, st.cells[p].List(side)[i]) {
        assert ArmedOk(st, p, side, st.cells[p].List(side)[i]);
      }
    }
    forall x | 0 <= x < |st.gens| ensures SuspendedOk(st', x) { assert SuspendedOk(st, x); }
  }

  lemma FinishGenInv(st: State, g: nat, p: nat, o: Outcome)
    requires Inv(st) && g < |st.gens| && p < |st.cells| && (o.ReturnedPromise? ==> o.p < |st.cells|)
    requires o.Suspended? <==> st.gens[g].status.SUSPENDED?
    ensures var st' := FinishGen(st, g, p, o);
            && Inv(st') && Evolves(st, st') && st'.log == st.log
            && st'.gens == if o.Suspended? then st.gens else st.gens[g := st.gens[g].(status := DONE)]
  {
    if !o.Suspended? {
      LeaveInv(st, g, DONE);
      var st1 := SetGen(st, g, DONE);
      match o
      case Returned(v) => SettleInv(st1, p, Resolved(v));
      case ReturnedPromise(q) => AdoptionInv(st1, p, q);
      case Threw(e) => SettleInv(st1, p, Rejected(e));
    }
  }

  lemma CtxSettleInv(st: State, p: nat, f: Settled)
    requires Inv(st) && p < |st.cells|
    ensures Inv(CtxSettle(st, p, f)) && Evolves(st, CtxSettle(st, p, f))
  {
    RecordInv(st, p, Direct(f));
    SettleInv(Record(st, p, Direct(f)), p, f);
  }

  lemma CtxFollowInv(st: State, p: nat, q: nat)
    requires Inv(st) && p < |st.cells| && q < |st.cells|
    ensures Inv(CtxFollow(st, p, q)) && Evolves(st, CtxFollow(st, p, q))
  {
    RecordInv(st, p, Following(q));
    AdoptionInv(Record(st, p, Following(q)), p, q);
  }

  lemma TasksInv(st: State, oneshots: seq<Handler>, permanents: seq<Task>)
    requires Inv(st) && st.oneshots <= oneshots && st.permanents <= permanents
    requires forall i :: |st.oneshots| <= i < |oneshots| ==> oneshots[i].Closure? && HandlerOk(oneshots[i], st)
    requires forall i :: |st.permanents| <= i < |permanents| ==> TaskOk(permanents[i], st)
    ensures var st' := st.(oneshots := oneshots, permanents := permanents);
            Inv(st') && Evolves(st, st')
  {
    GrownInv(st, st.(oneshots := oneshots, permanents := permanents));
  }

  lemma LibraryCallInv(op: Op, env: Env, st: State)
    requires Inv(st) && ScopedOp(op, |env.proms|) && EnvOk(env, |st.cells|)
    ensures var st' := LibraryCall(op, env, st).1;
            Ran(st, st') && st'.gens == st.gens
  {
    match op
    case New => AllocInv(st, Root, Pending);
    case NewSettled(isVoid, f) => AllocSettledInv(st, isVoid, f(env.data));
    case Chain(side, r, isVoid, body) => RegisterInv(st, side, env.proms[r], Closure(isVoid, env, body));
    case SettleWith(r, f) => CtxSettleInv(st, env.proms[r], f(env.data));
    case Follow(r, q) => CtxFollowInv(st, env.proms[r], env.proms[q]);
    case Oneshot(body) => TasksInv(st, st.oneshots + [Closure(true, env, body)], st.permanents);
    case Permanent(body) => TasksInv(st, st.oneshots, st.permanents + [RunCode(env, body)]);
  }

  /** What a script may do to the generators: only the one it runs in is suspended by it, those it starts
      are not left running, and the others are not touched. */
  ghost predicate GensKept(a: State, b: State, cur: int, o: Outcome) {
    && |a.gens| <= |b.gens|
    && (forall g :: 0 <= g < |a.gens| && g != cur ==> b.gens[g] == a.gens[g])
    && (forall g :: |a.gens| <= g < |b.gens| ==> !b.gens[g].status.RUNNING?)
    && (0 <= cur < |a.gens| ==> if o.Suspended? then b.gens[cur].status.SUSPENDED? else b.gens[cur] == a.gens[cur])
    && (o.Suspended? ==> 0 <= cur)
  }

  /** What user code that is not suspended leaves behind. */
  ghost predicate Ran(a: State, b: State) {
    Inv(b) && Evolves(a, b) && b.log == a.log && GensKept(a, b, -1, Returned(Blank))
  }

  ghost predicate RanIn(a: State, b: State, cur: int, o: Outcome) {
    Inv(b) && Evolves(a, b) && b.log == a.log && GensKept(a, b, cur, o)
  }

  lemma RanThen(a: State, b: State, c: State, cur: int, o: Outcome)
    requires cur < |a.gens| && Ran(a, b) && RanIn(b, c, cur, o)
    ensures RanIn(a, c, cur, o)
  {
    EvolvesTrans(a, b, c);
  }

  lemma AwaitRan(st: State, g: nat, p: nat, env: Env, kv: Script, ke: Script)
    requires Inv(st) && g < |st.gens| && st.gens[g].status.RUNNING? && p < |st.cells|
    requires EnvOk(env, |st.cells|) && Scoped(kv, |env.proms|, true) && Scoped(ke, |env.proms|, true)
    ensures RanIn(st, Arm(st, g, p, env, kv, ke), g, Suspended)
  {
    ArmInv(st, g, p, env, kv, ke);
    ArmLists(st, g, p, env, kv, ke);
    ArmedLists(st, g, p);
  }

  /** Any user code, however nested, keeps the invariant and the history, and runs no handler. */
  lemma {:induction false} ExecInv(s: Script, env: Env, cur: int, st: State)
    requires Inv(st) && EnvOk(env, |st.cells|) && cur < |st.gens| && Scoped(s, |env.proms|, 0 <= cur)
    requires 0 <= cur ==> st.gens[cur].status.RUNNING?
    ensures RanIn(st, Exec(s, env, cur, st).0, cur, Exec(s, env, cur, st).1)
    decreases s, 0
  {
    match s
    case Return(_) =>
    case ReturnPromise(_) =>
    case Throw(_) =>
    case If(t, a, b) => ExecInv(if t(env.data) then a else b, env, cur, st);
    case Do(op, k) =>
      var r := LibraryCall(op, env, st);
      LibraryCallInv(op, env, st);
      ExecInv(k, r.0, cur, r.1);
      RanThen(st, r.1, Exec(k, r.0, cur, r.1).0, cur, Exec(k, r.0, cur, r.1).1);
    case Call(body, k) =>
      var st1 := CallAsync(st, env, body);
      CallAsyncInv(st, env, body);
      var env1 := env.WithPromise(|st.cells|);
      ExecInv(k, env1, cur, st1);
      RanThen(st, st1, Exec(k, env1, cur, st1).0, cur, Exec(k, env1, cur, st1).1);
    case Await(r, kv, ke) =>
      AwaitRan(st, cur, env.proms[r], env, kv, ke);
  }

  /** The call of an async function runs its body up to the first suspension or to the end. */
  lemma {:induction false} CallAsyncInv(st: State, env: Env, body: Script)
    requires Inv(st) && EnvOk(env, |st.cells|) && Scoped(body, |env.proms|, true)
    ensures Ran(st, CallAsync(st, env, body))
    decreases body, 1
  {
    var st1 := StartAsync(st, env, body);
    StartAsyncInv(st, env, body);
    ExecInv(body, env, |st.gens|, st1);
    var r := Exec(body, env, |st.gens|, st1);
    FinishGenInv(r.0, |st.gens|, |st.cells|, r.1);
    EvolvesTrans(st, st1, r.0);
    EvolvesTrans(st, r.0, FinishGen(r.0, |st.gens|, |st.cells|, r.1));
  }
}
