/** `promise_task`: calling back every settled promise until nothing is left to call back. */
module Draining {
  import opened Scripts
  import opened Promises
  import opened Invariant
  import opened Weights

  /** The list that the promise at the head of the queue is calling back. */
  function Head(st: State): seq<Wrapper>
    requires QueueInv(st) && st.queue != []
  {
    st.cells[st.queue[0]].List(Way(st.cells[st.queue[0]].fate))
  }

  /** Move the cursor of `call_back` past one wrapper. */
  function Advance(st: State, p: nat): State
    requires p < |st.cells| && !st.cells[p].fate.Pending? && st.cells[p].List(Way(st.cells[p].fate)) != []
  {
    var c := st.cells[p];
    SetCell(st, p, c.WithList(Way(c.fate), c.List(Way(c.fate))[1..]))
  }

  /** The end of `call_back` for the promise at the head of the queue. */
  function Close(st: State): State
    requires QueueInv(st) && st.queue != []
  {
    var p := st.queue[0];
    SetCell(st, p, st.cells[p].(pendingCallback := false, fulfilled := [], rejected := [])).(queue := st.queue[1..])
  }

  /** Start the next handler: past the cursor, logged, and its generator switched to. */
  function Begin(st: State, h: Handler, child: nat): State
    requires QueueInv(st) && st.queue != [] && Head(st) != [] && HandlerOk(h, st)
  {
    var p := st.queue[0];
    var st1 := Advance(st, p);
    Switch(st1.(log := st.log + [Entry(p, child, st.cells[p].fate)]), h)
  }

  function StatusOf(st: State, h: Handler): GenStatus
    requires HandlerOk(h, st)
  {
    if h.Resume? then st.gens[h.gen].status else DONE
  }

  /** Run handler `h` of the head promise and associate `child` with its result. */
  function CallHandler(st: State, h: Handler, child: nat): (st': State)
    requires Inv(st) && st.queue != [] && Head(st) != [] && HandlerOk(h, st) && child < |st.cells|
  {
    assert h.Resume? ==> SuspendedOk(st, h.gen);
    var r := RunHandler(Begin(st, h, child), h, StatusOf(st, h), st.cells[st.queue[0]].fate);
    Conclude(r.0, child, IsVoid(h), r.1)
  }

  /** One step of the drain: the next wrapper of the head promise, or the end of its `call_back`. */
  function Step(st: State): State
    requires Inv(st) && st.queue != []
  {
    if Head(st) == [] then Close(st)
    else
      assert ListOk(st, st.queue[0], Way(st.cells[st.queue[0]].fate));
      assert WrapperOk(st, st.queue[0], Way(st.cells[st.queue[0]].fate), Head(st)[0]);
      match Head(st)[0]
      case Adopt(o) => Settle(Advance(st, st.queue[0]), o, st.cells[st.queue[0]].fate)
      case Handle(h, child) => CallHandler(st, h, child)
  }

  // -------------------------------------------------------------------------------------------
  // Each step keeps the invariant
  // -------------------------------------------------------------------------------------------

  /** `ws` is what is left of `us` behind a cursor. */
  ghost predicate LeftOf(us: seq<Wrapper>, ws: seq<Wrapper>) {
    |ws| <= |us| && forall i :: 0 <= i < |ws| ==> ws[i] == us[|us| - |ws| + i]
  }

  /** Cursors move; cells, fates and origins stay. */
  ghost predicate Passed(a: State, b: State) {
    && Evolves(a, b) && |b.cells| == |a.cells| && |b.gens| == |a.gens| && b.oneshots == a.oneshots
    && b.permanents == a.permanents
    && (forall p :: 0 <= p < |a.cells| ==> b.cells[p].fate == a.cells[p].fate)
    && (forall p, side :: 0 <= p < |a.cells| ==> LeftOf(a.cells[p].List(side), b.cells[p].List(side)))
  }

  lemma PassedLists(a: State, b: State)
    requires ListsInv(a) && Passed(a, b)
    ensures ListsInv(b)
  {
    forall p, side | 0 <= p < |a.cells| ensures ListOk(b, p, side) {
      assert ListOk(a, p, side);
      var us, ws := a.cells[p].List(side), b.cells[p].List(side);
      assert LeftOf(us, ws);
      forall i | 0 <= i < |ws| ensures WrapperOk(b, p, side, ws[i]) {
        assert WrapperOk(a, p, side, us[|us| - |ws| + i]);
      }
    }
  }

  lemma PassedEntry(a: State, b: State, e: Entry)
    requires EntryOk(a, e) && Passed(a, b)
    ensures EntryOk(b, e)
  {
    var us, ws := a.cells[e.promise].List(Way(e.arg)), b.cells[e.promise].List(Way(e.arg));
    assert LeftOf(us, ws);
    assert forall i :: 0 <= i < |ws| && ws[i].Handle? ==> e.child < us[|us| - |ws| + i].child;
  }

  lemma PassedArmed(a: State, b: State, p: nat, side: Side)
    requires p < |a.cells| && ArmedInv(a, p, side) && Passed(a, b)
    requires b.gens == a.gens
    ensures ArmedInv(b, p, side)
  {
    var us, ws := a.cells[p].List(side), b.cells[p].List(side);
    assert LeftOf(us, ws);
    forall i | 0 <= i < |ws| ensures ArmedOk(b, p, side, ws[i]) {
      assert ArmedOk(a, p, side, us[|us| - |ws| + i]);
    }
  }

  /** A registration stays accounted for unless its wrapper is passed without being logged. */
  lemma PassedAccounted(a: State, b: State, c: nat)
    requires c < |a.cells| && Accounted(a, c) && Passed(a, b)
    requires var d := a.cells[c].def;
             d.Chained? && d.parent < c && Fireable(a, d.parent, d.side)
               && Handle(d.handler, c) in a.cells[d.parent].List(d.side) ==>
               || Handle(d.handler, c) in b.cells[d.parent].List(d.side)
               || (!a.cells[d.parent].fate.Pending? && Entry(d.parent, c, a.cells[d.parent].fate) in b.log)
    ensures Accounted(b, c)
  {
  }

  lemma PassedInv(a: State, b: State)
    requires Inv(a) && Passed(a, b) && b.gens == a.gens && b.log == a.log && QueueInv(b)
    requires forall c :: 0 <= c < |a.cells| ==> Accounted(b, c)
    ensures Inv(b)
  {
    PassedLists(a, b);
    forall i | 0 <= i < |a.log| ensures EntryOk(b, a.log[i]) { PassedEntry(a, b, a.log[i]); }
    forall p, side | 0 <= p < |a.cells| ensures ArmedInv(b, p, side) { PassedArmed(a, b, p, side); }
    forall g | 0 <= g < |a.gens| ensures SuspendedOk(b, g) { assert SuspendedOk(a, g); }
  }

  lemma CloseQueue(st: State)
    requires QueueInv(st) && st.queue != []
    ensures QueueInv(Close(st))
  {
    var st', p := Close(st), st.queue[0];
    assert forall i :: 0 <= i < |st'.queue| ==> st'.queue[i] == st.queue[i + 1];
    forall q | 0 <= q < |st.cells| && st'.cells[q].pendingCallback ensures q in st'.queue {
      var i :| 0 <= i < |st.queue| && st.queue[i] == q;
      assert st'.queue[i - 1] == q;
    }
  }

  /** Shortening the lists of one promise passes wrappers. */
  lemma ShortenPassed(st: State, p: nat, c: Cell)
    requires p < |st.cells| && c.fate == st.cells[p].fate && c.def == st.cells[p].def && c.calls == st.cells[p].calls
    requires forall side :: LeftOf(st.cells[p].List(side), c.List(side))
    ensures Passed(st, SetCell(st, p, c))
    ensures forall q, side :: 0 <= q < |st.cells| && q != p ==>
              SetCell(st, p, c).cells[q].List(side) == st.cells[q].List(side)
  {
    var st' := SetCell(st, p, c);
    forall q, side | 0 <= q < |st.cells| ensures LeftOf(st.cells[q].List(side), st'.cells[q].List(side)) {
      if q != p { assert st'.cells[q] == st.cells[q]; }
    }
  }

  lemma ClosePassed(st: State)
    requires QueueInv(st) && st.queue != []
    ensures Passed(st, Close(st))
    ensures forall q, side :: 0 <= q < |st.cells| && q != st.queue[0] ==>
              Close(st).cells[q].List(side) == st.cells[q].List(side)
  {
    var p := st.queue[0];
    ShortenPassed(st, p, st.cells[p].(pendingCallback := false, fulfilled := [], rejected := []));
  }

  lemma CloseInv(st: State)
    requires Inv(st) && st.queue != [] && Head(st) == []
    ensures Inv(Close(st)) && Passed(st, Close(st)) && Close(st).gens == st.gens && Close(st).log == st.log
  {
    CloseQueue(st);
    ClosePassed(st);
    forall c | 0 <= c < |st.cells| ensures Accounted(Close(st), c) {
      PassedAccounted(st, Close(st), c);
    }
    PassedInv(st, Close(st));
  }

  lemma AdvancePassed(st: State)
    requires QueueInv(st) && st.queue != [] && Head(st) != []
    ensures var p := st.queue[0];
            && Passed(st, Advance(st, p)) && QueueInv(Advance(st, p))
            && Advance(st, p).cells[p].List(Way(st.cells[p].fate)) == Head(st)[1..]
            && forall q, side :: 0 <= q < |st.cells| && (q != p || side != Way(st.cells[p].fate)) ==>
                 Advance(st, p).cells[q].List(side) == st.cells[q].List(side)
  {
    var p := st.queue[0];
    var way := Way(st.cells[p].fate);
    var c := st.cells[p].WithList(way, Head(st)[1..]);
    forall side ensures LeftOf(st.cells[p].List(side), c.List(side)) {
      if side != way { assert c.List(side) == st.cells[p].List(side); }
    }
    ShortenPassed(st, p, c);
    PushQueue(st, p, way, Head(st)[1..]);
  }

  /** Any wrapper but the one at the cursor is still in its list. */
  lemma AdvanceKeeps(st: State, q: nat, side: Side, w: Wrapper)
    requires QueueInv(st) && st.queue != [] && Head(st) != [] && q < |st.cells|
    requires w in st.cells[q].List(side)
    ensures w in Advance(st, st.queue[0]).cells[q].List(side)
            || (q == st.queue[0] && side == Way(st.cells[q].fate) && w == Head(st)[0])
  {
    AdvancePassed(st);
    if q == st.queue[0] && side == Way(st.cells[q].fate) {
      var i :| 0 <= i < |Head(st)| && Head(st)[i] == w;
      if i > 0 { assert Head(st)[1..][i - 1] == w; }
    }
  }

  /** Passing an internal wrapper. */
  lemma AdvanceInv(st: State)
    requires Inv(st) && st.queue != [] && Head(st) != [] && Head(st)[0].Adopt?
    ensures var st' := Advance(st, st.queue[0]);
            Inv(st') && Passed(st, st') && st'.gens == st.gens
  {
    var st' := Advance(st, st.queue[0]);
    AdvancePassed(st);
    forall c | 0 <= c < |st.cells| ensures Accounted(st', c) {
      assert Accounted(st, c);
      var d := st.cells[c].def;
      if d.Chained? && Handle(d.handler, c) in st.cells[d.parent].List(d.side) {
        AdvanceKeeps(st, d.parent, d.side, Handle(d.handler, c));
      }
      PassedAccounted(st, st', c);
    }
    PassedInv(st, st');
  }

  /** A handler that is about to be called is user code, or resumes a generator that is suspended on the
      very promise that calls back: an await never finds its generator RUNNING or DONE. */
  lemma NextHandlerReady(st: State)
    requires Inv(st) && st.queue != [] && Head(st) != [] && Head(st)[0].Handle?
    ensures var h, child, p := Head(st)[0].handler, Head(st)[0].child, st.queue[0];
            && HandlerOk(h, st) && child < |st.cells|
            && st.cells[child].def == Chained(Way(st.cells[p].fate), p, h)
            && (h.Resume? ==>
                  && st.gens[h.gen].status.SUSPENDED? && st.gens[h.gen].status.awaited == p
                  && child == if st.cells[p].fate.Resolved? then st.gens[h.gen].status.nextChild
                              else st.gens[h.gen].status.throwChild)
  {
    var p := st.queue[0];
    var way := Way(st.cells[p].fate);
    assert ListOk(st, p, way) && ArmedInv(st, p, way);
    assert WrapperOk(st, p, way, Head(st)[0]) && ArmedOk(st, p, way, Head(st)[0]);
  }

  ghost predicate CanBegin(st: State, h: Handler, child: nat) {
    Inv(st) && st.queue != [] && Head(st) != [] && Head(st)[0] == Handle(h, child) && HandlerOk(h, st)
  }

  lemma BeginPassed(st: State, h: Handler, child: nat)
    requires CanBegin(st, h, child)
    ensures var st', p := Begin(st, h, child), st.queue[0];
            && Passed(st, st') && QueueInv(st')
            && st'.cells == Advance(st, p).cells && st'.queue == st.queue
            && st'.log == st.log + [Entry(p, child, st.cells[p].fate)]
            && st'.gens == if h.Resume? then st.gens[h.gen := st.gens[h.gen].(status := RUNNING)] else st.gens
  {
    AdvancePassed(st);
    NextHandlerReady(st);
  }

  lemma BeginAccount(st: State, h: Handler, child: nat)
    requires CanBegin(st, h, child)
    ensures AccountInv(Begin(st, h, child))
  {
    var st', p := Begin(st, h, child), st.queue[0];
    BeginPassed(st, h, child);
    assert st'.log[|st.log|] == Entry(p, child, st.cells[p].fate);
    forall c | 0 <= c < |st'.cells| ensures Accounted(st', c) {
      assert Accounted(st, c);
      var d := st.cells[c].def;
      if d.Chained? && Handle(d.handler, c) in st.cells[d.parent].List(d.side) {
        AdvanceKeeps(st, d.parent, d.side, Handle(d.handler, c));
      }
      PassedAccounted(st, st', c);
    }
  }

  /** The handler at the cursor was registered before every one behind it, and after all that have run. */
  lemma HeadInOrder(st: State, child: nat, i: nat)
    requires QueueInv(st) && LogInv(st) && st.queue != [] && Head(st) != []
    requires ListOk(st, st.queue[0], Way(st.cells[st.queue[0]].fate))
    requires Head(st)[0].Handle? && Head(st)[0].child == child
    ensures Precedes(child, Head(st)[1..])
    ensures i < |st.log| && st.log[i].promise == st.queue[0] ==> st.log[i].child < child
  {
    assert Ordered(Head(st));
    if i < |st.log| { assert EntryOk(st, st.log[i]); }
  }

  lemma BeginLog(st: State, h: Handler, child: nat)
    requires CanBegin(st, h, child)
    ensures LogInv(Begin(st, h, child))
  {
    var st', p := Begin(st, h, child), st.queue[0];
    BeginPassed(st, h, child);
    AdvancePassed(st);
    NextHandlerReady(st);
    assert ListOk(st, p, Way(st.cells[p].fate));
    forall i | 0 <= i < |st'.log| ensures EntryOk(st', st'.log[i]) {
      if i < |st.log| { PassedEntry(st, st', st.log[i]); } else { HeadInOrder(st, child, i); }
    }
    forall i, j | 0 <= i < j < |st'.log| && st'.log[i].promise == st'.log[j].promise
      ensures st'.log[i].child < st'.log[j].child
    {
      if j == |st.log| { HeadInOrder(st, child, i); }
    }
  }

  /** The wrapper at the cursor is the only live one that resumes its generator. */
  lemma OnlyArmed(st: State, q: nat, side: Side, j: nat)
    requires Inv(st) && st.queue != [] && Head(st) != [] && Head(st)[0].Handle? && Head(st)[0].handler.Resume?
    requires q < |st.cells| && j < |st.cells[q].List(side)| && Fireable(st, q, side)
    requires var w := st.cells[q].List(side)[j];
             w.Handle? && w.handler == Head(st)[0].handler
    ensures q == st.queue[0] && side == Way(st.cells[q].fate) && j == 0
  {
    NextHandlerReady(st);
    assert ListOk(st, q, side) && ArmedInv(st, q, side);
    assert ArmedOk(st, q, side, st.cells[q].List(side)[j]);
    assert st.cells[q].List(side)[0].child == st.cells[q].List(side)[j].child;
  }

  lemma PassedArmedBut(a: State, b: State, p: nat, side: Side, g: nat)
    requires p < |a.cells| && ArmedInv(a, p, side) && Passed(a, b)
    requires forall x :: 0 <= x < |a.gens| && x != g ==> b.gens[x] == a.gens[x]
    requires forall i :: 0 <= i < |b.cells[p].List(side)| ==>
               !(Fireable(a, p, side) && b.cells[p].List(side)[i].Handle?
                 && b.cells[p].List(side)[i].handler == Resume(g))
    ensures ArmedInv(b, p, side)
  {
    var us, ws := a.cells[p].List(side), b.cells[p].List(side);
    assert LeftOf(us, ws);
    forall i | 0 <= i < |ws| ensures ArmedOk(b, p, side, ws[i]) {
      assert ws[i] == us[|us| - |ws| + i];
      assert ArmedOk(a, p, side, us[|us| - |ws| + i]);
    }
  }

  lemma BeginUnarmed(st: State, h: Handler, child: nat, q: nat, side: Side, i: nat)
    requires CanBegin(st, h, child) && h.Resume? && q < |st.cells| && Fireable(st, q, side)
    requires var st' := Advance(st, st.queue[0]);
             q < |st'.cells| && i < |st'.cells[q].List(side)|
    ensures var w := Advance(st, st.queue[0]).cells[q].List(side)[i];
            !(w.Handle? && w.handler == h)
  {
    AdvancePassed(st);
    var us, ws := st.cells[q].List(side), Advance(st, st.queue[0]).cells[q].List(side);
    var j := if q == st.queue[0] && side == Way(st.cells[q].fate) then i + 1 else i;
    assert ws[i] == us[j];
    if us[j].Handle? && us[j].handler == h {
      OnlyArmed(st, q, side, j);
      assert false;
    }
  }

  lemma BeginArmed(st: State, h: Handler, child: nat, q: nat, side: Side)
    requires CanBegin(st, h, child) && q < |st.cells|
    ensures q < |Begin(st, h, child).cells| && ArmedInv(Begin(st, h, child), q, side)
  {
    var st' := Begin(st, h, child);
    BeginPassed(st, h, child);
    if h.Resume? {
      forall i | 0 <= i < |st'.cells[q].List(side)| && Fireable(st, q, side)
        ensures !(st'.cells[q].List(side)[i].Handle? && st'.cells[q].List(side)[i].handler == h)
      {
        BeginUnarmed(st, h, child, q, side, i);
      }
      PassedArmedBut(st, st', q, side, h.gen);
    } else {
      PassedArmed(st, st', q, side);
    }
  }

  lemma BeginSuspended(st: State, h: Handler, child: nat, g: nat)
    requires CanBegin(st, h, child) && g < |st.gens|
    ensures g < |Begin(st, h, child).gens| && SuspendedOk(Begin(st, h, child), g)
  {
    BeginPassed(st, h, child);
    NextHandlerReady(st);
    assert SuspendedOk(st, g);
  }

  /** Once its handler has begun, neither wrapper of the pair that await armed can fire. */
  lemma BeginInv(st: State, h: Handler, child: nat)
    requires CanBegin(st, h, child)
    ensures Inv(Begin(st, h, child)) && Evolves(st, Begin(st, h, child))
  {
    var st' := Begin(st, h, child);
    BeginPassed(st, h, child);
    PassedLists(st, st');
    BeginLog(st, h, child);
    BeginAccount(st, h, child);
    forall q, side | 0 <= q < |st'.cells| ensures ArmedInv(st', q, side) { BeginArmed(st, h, child, q, side); }
    forall g | 0 <= g < |st'.gens| ensures SuspendedOk(st', g) { BeginSuspended(st, h, child, g); }
  }

  lemma FreshInnerInv(st: State, child: nat, isVoid: bool, f: Settled)
    requires Inv(st) && child < |st.cells|
    ensures var st' := Associate(AllocSettled(st, isVoid, f), child, |st.cells|);
            Inv(st') && Evolves(st, st') && st'.gens == st.gens && st'.log == st.log
  {
    var st1 := AllocSettled(st, isVoid, f);
    AllocSettledInv(st, isVoid, f);
    AssociateInv(st1, child, |st.cells|);
    EvolvesTrans(st, st1, Associate(st1, child, |st.cells|));
  }

  lemma ConcludeInv(st: State, child: nat, isVoid: bool, o: Outcome)
    requires Inv(st) && child < |st.cells| && !o.Suspended? && (o.ReturnedPromise? ==> o.p < |st.cells|)
    ensures var st' := Conclude(st, child, isVoid, o);
            Inv(st') && Evolves(st, st') && st'.gens == st.gens && st'.log == st.log
  {
    match o
    case Returned(v) => FreshInnerInv(st, child, isVoid, Resolved(v));
    case ReturnedPromise(q) => AssociateInv(st, child, q);
    case Threw(e) => FreshInnerInv(st, child, isVoid, Rejected(e));
  }

  /** What calling a handler does, short of turning its outcome into a promise. */
  function RunHead(st: State, h: Handler, child: nat): (State, Outcome)
    requires CanBegin(st, h, child)
  {
    BeginInv(st, h, child);
    assert h.Resume? ==> SuspendedOk(st, h.gen);
    RunHandler(Begin(st, h, child), h, StatusOf(st, h), st.cells[st.queue[0]].fate)
  }

  lemma RunHeadInv(st: State, h: Handler, child: nat)
    requires CanBegin(st, h, child) && Idle(st)
    ensures var st1, r := Begin(st, h, child), RunHead(st, h, child);
            && Inv(r.0) && Idle(r.0) && Evolves(st1, r.0) && r.0.log == st1.log && !r.1.Suspended?
            && |r.0.cells| >= |st.cells| && (r.1.ReturnedPromise? ==> r.1.p < |r.0.cells|)
  {
    var st1, arg := Begin(st, h, child), st.cells[st.queue[0]].fate;
    BeginPassed(st, h, child);
    BeginInv(st, h, child);
    NextHandlerReady(st);
    match h
    case Closure(_, env, body) => ExecInv(body, env.WithArg(arg), -1, st1);
    case Resume(g) =>
      assert SuspendedOk(st, g);
      ResumeInv(st1, g, st.gens[g].status, arg);
  }

  /** A resumed generator is suspended again or done. */
  lemma ResumeInv(st: State, g: nat, was: GenStatus, arg: Settled)
    requires Inv(st) && g < |st.gens| && was.SUSPENDED? && FrameOk(Coroutine(st.gens[g].owner, was), |st.cells|)
    requires forall x :: 0 <= x < |st.gens| ==> (st.gens[x].status.RUNNING? <==> x == g)
    ensures var r := RunResume(st, g, was, arg);
            Inv(r.0) && Idle(r.0) && Evolves(st, r.0) && r.0.log == st.log
  {
    var s, env := if arg.Resolved? then was.onValue else was.onError, was.env.WithArg(arg);
    ExecInv(s, env, g, st);
    var r1 := Exec(s, env, g, st);
    FinishGenInv(r1.0, g, st.gens[g].owner, r1.1);
    EvolvesTrans(st, r1.0, FinishGen(r1.0, g, st.gens[g].owner, r1.1));
  }

  lemma HeadOutcome(st: State, h: Handler, child: nat)
    requires CanBegin(st, h, child) && child < |st.cells| && Idle(st)
    ensures var r := RunHead(st, h, child);
            && CallHandler(st, h, child) == Conclude(r.0, child, IsVoid(h), r.1)
            && !r.1.Suspended? && child < |r.0.cells| && (r.1.ReturnedPromise? ==> r.1.p < |r.0.cells|)
    ensures h.Resume? ==> FrameOk(st.gens[h.gen], |st.cells|)
  {
    RunHeadInv(st, h, child);
    assert h.Resume? ==> SuspendedOk(st, h.gen);
  }

  /** Running a handler: whatever it does, the invariant holds and no generator is left running. */
  lemma CallHandlerInv(st: State, h: Handler, child: nat)
    requires CanBegin(st, h, child) && child < |st.cells| && Idle(st)
    ensures var st', p := CallHandler(st, h, child), st.queue[0];
            && Inv(st') && Idle(st') && Evolves(st, st')
            && st'.log == st.log + [Entry(p, child, st.cells[p].fate)]
  {
    BeginPassed(st, h, child);
    BeginInv(st, h, child);
    RunHeadInv(st, h, child);
    var r := RunHead(st, h, child);
    ConcludeInv(r.0, child, IsVoid(h), r.1);
    EvolvesTrans(st, Begin(st, h, child), r.0);
    EvolvesTrans(st, r.0, Conclude(r.0, child, IsVoid(h), r.1));
  }

  // -------------------------------------------------------------------------------------------
  // Each step uses up work
  // -------------------------------------------------------------------------------------------

  lemma AdvanceTotal(st: State)
    requires QueueInv(st) && st.queue != [] && Head(st) != []
    ensures Total(Advance(st, st.queue[0])) + WrapperWeight(Head(st)[0]) == Total(st)
  {
    var p := st.queue[0];
    var c := st.cells[p];
    SetCellTotal(st, p, c.WithList(Way(c.fate), Head(st)[1..]));
  }

  lemma CloseTotal(st: State)
    requires QueueInv(st) && st.queue != []
    ensures Total(Close(st)) <= Total(st)
  {
    var p := st.queue[0];
    SetCellTotal(st, p, st.cells[p].(pendingCallback := false, fulfilled := [], rejected := []));
  }

  lemma ConcludeTotal(st: State, child: nat, isVoid: bool, o: Outcome)
    requires child < |st.cells| && (o.ReturnedPromise? ==> o.p < |st.cells|)
    ensures Total(Conclude(st, child, isVoid, o)) <= Total(st) + if o.ReturnedPromise? then 2 else 0
  {
    match o
    case Returned(v) =>
      AllocSettledTotal(st, isVoid, Resolved(v));
      AssociateTotal(AllocSettled(st, isVoid, Resolved(v)), child, |st.cells|);
    case ReturnedPromise(q) => AssociateTotal(st, child, q);
    case Threw(e) =>
      AllocSettledTotal(st, isVoid, Rejected(e));
      AssociateTotal(AllocSettled(st, isVoid, Rejected(e)), child, |st.cells|);
    case Suspended =>
  }

  lemma ResumeTotal(st: State, g: nat, was: GenStatus, arg: Settled)
    requires g < |st.gens| && was.SUSPENDED? && FrameOk(Coroutine(st.gens[g].owner, was), |st.cells|)
    ensures Total(RunResume(st, g, was, arg).0) <= Total(st) + Weight(was.onValue) + Weight(was.onError) + 2
  {
    var s, env := if arg.Resolved? then was.onValue else was.onError, was.env.WithArg(arg);
    ExecTotal(s, env, g, st);
    var r1 := Exec(s, env, g, st);
    FinishGenTotal(r1.0, g, st.gens[g].owner, r1.1);
  }

  lemma CallHandlerTotal(st: State, h: Handler, child: nat)
    requires CanBegin(st, h, child) && child < |st.cells|
    ensures Total(CallHandler(st, h, child)) < Total(st)
  {
    var p := st.queue[0];
    var st1, arg := Begin(st, h, child), st.cells[p].fate;
    BeginPassed(st, h, child);
    NextHandlerReady(st);
    AdvanceTotal(st);
    var r := RunHead(st, h, child);
    ConcludeTotal(r.0, child, IsVoid(h), r.1);
    match h
    case Closure(_, env, body) => ExecTotal(body, env.WithArg(arg), -1, st1);
    case Resume(g) =>
      assert SuspendedOk(st, g);
      SetGenTotal(Advance(st, p), g, RUNNING);
      ResumeTotal(st1, g, st.gens[g].status, arg);
  }

  // -------------------------------------------------------------------------------------------
  // The drain
  // -------------------------------------------------------------------------------------------

  /** Between two callbacks. */
  ghost predicate Ready(st: State) {
    Inv(st) && Idle(st)
  }

  /** One step keeps the invariant and the history; it consumes work, or it finishes a promise without
      adding any. */
  lemma StepInv(st: State)
    requires Ready(st) && st.queue != []
    ensures Ready(Step(st)) && Evolves(st, Step(st))
    ensures Total(Step(st)) < Total(st) || (Total(Step(st)) <= Total(st) && |Step(st).queue| < |st.queue|)
  {
    if Head(st) == [] {
      CloseInv(st);
      CloseTotal(st);
    } else {
      var p := st.queue[0];
      match Head(st)[0]
      case Adopt(o) =>
        assert ListOk(st, p, Way(st.cells[p].fate)) && WrapperOk(st, p, Way(st.cells[p].fate), Head(st)[0]);
        AdvanceInv(st);
        AdvanceTotal(st);
        SettleInv(Advance(st, p), o, st.cells[p].fate);
        SettleTotal(Advance(st, p), o, st.cells[p].fate);
        EvolvesTrans(st, Advance(st, p), Step(st));
      case Handle(h, child) =>
        NextHandlerReady(st);
        CallHandlerInv(st, h, child);
        CallHandlerTotal(st, h, child);
    }
  }

  lemma HandlersConsume(st: State)
    requires Ready(st) && st.queue != [] && Head(st) != []
    ensures Total(Step(st)) < Total(st)
  {
    var p := st.queue[0];
    match Head(st)[0]
    case Adopt(o) =>
      assert ListOk(st, p, Way(st.cells[p].fate)) && WrapperOk(st, p, Way(st.cells[p].fate), Head(st)[0]);
      AdvanceTotal(st);
      SettleTotal(Advance(st, p), o, st.cells[p].fate);
    case Handle(h, child) =>
      NextHandlerReady(st);
      CallHandlerTotal(st, h, child);
  }

  /** `promise_task`. */
  function Drain(st: State): (st': State)
    requires Ready(st)
    decreases Total(st), |st.queue|
  {
    if st.queue == [] then st
    else
      StepInv(st);
      Drain(Step(st))
  }

  /** `call_back` of `p` is under way since `start`, and the drain is still bound for `end`. */
  ghost predicate Calling(start: State, st: State, p: nat, end: State) {
    && Ready(st) && st.queue != [] && st.queue[0] == p && Drain(st) == end
    && (st == start || Total(st) < Total(start))
  }

  /** A step at a wrapper consumes work, and the promise keeps its fate. */
  lemma HandlerStep(start: State, st: State, p: nat, end: State)
    requires Calling(start, st, p, end) && Head(st) != []
    ensures p < |Step(st).cells| && Step(st).cells[p].fate == st.cells[p].fate && Total(Step(st)) < Total(st)
    ensures Step(st).queue != [] && Step(st).queue[0] == p ==> Calling(start, Step(st), p, end)
  {
    StepInv(st);
    HandlersConsume(st);
  }

  /** Where the drain stands after a `call_back` that began in `start`. */
  ghost predicate CalledBack(start: State, st: State, end: State) {
    && Ready(st) && Drain(st) == end
    && (Total(st) < Total(start) || (Total(st) <= Total(start) && |st.queue| < |start.queue|))
  }

  lemma CloseStep(start: State, st: State, p: nat, end: State)
    requires Calling(start, st, p, end) && Head(st) == []
    ensures CalledBack(start, Close(st), end)
  {
    StepInv(st);
    CloseTotal(st);
  }

  lemma {:induction false} DrainInv(st: State)
    requires Ready(st)
    ensures Ready(Drain(st)) && Evolves(st, Drain(st)) && Drain(st).queue == []
    decreases Total(st), |st.queue|
  {
    if st.queue != [] {
      StepInv(st);
      DrainInv(Step(st));
      EvolvesTrans(st, Step(st), Drain(st));
    }
  }
}
