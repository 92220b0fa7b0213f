/** One program, any schedule: the same blocks of code with `promise_task` run at other moments. */
module Schedules {
  import opened Scripts
  import opened Promises
  import opened Invariant
  import opened Weights
  import opened Draining
  import opened Equations
  import opened Settling
  import opened FixedPoints
  import opened Solutions
  import opened Guarantees

  /** A block of code names promises by the order in which the blocks make them, whatever handles they get. */
  datatype Item = Block(s: Script, names: Env) | Task

  // -------------------------------------------------------------------------------------------
  // Programs
  // -------------------------------------------------------------------------------------------

  /** How many promises running `s` makes. */
  function Makes(s: Script, d: Data): nat {
    match s
    case If(t, a, b) => if t(d) then Makes(a, d) else Makes(b, d)
    case Do(op, k) => Binds(op) + Makes(k, d)
    case Call(body, k) => 1 + Makes(body, d) + Makes(k, d)
    case Await(_, _, _) => 2
    case _ => 0
  }

  function Made(items: seq<Item>): nat {
    if items == [] then 0
    else Made(items[..|items| - 1]) + match items[|items| - 1]
      case Block(s, names) => Makes(s, names.data)
      case Task => 0
  }

  /** Every block is closed, and names promises that earlier blocks have made. */
  predicate Playable(items: seq<Item>) {
    items == [] ||
    (&& Playable(items[..|items| - 1])
     && match items[|items| - 1]
        case Block(s, names) =>
          Scoped(s, |names.proms|, false) && EnvOk(names, Made(items[..|items| - 1]))
        case Task => true)
  }

  /** The program without its schedule. */
  function Blocks(items: seq<Item>): seq<Item> {
    if items == [] then []
    else Blocks(items[..|items| - 1]) + if items[|items| - 1].Block? then [items[|items| - 1]] else []
  }

  lemma {:induction false} BlocksPlayable(items: seq<Item>)
    requires Playable(items)
    ensures Playable(Blocks(items)) && Made(Blocks(items)) == Made(items) && Blocks(Blocks(items)) == Blocks(items)
  {
    if items != [] {
      var front, last := items[..|items| - 1], items[|items| - 1];
      BlocksPlayable(front);
      if last.Block? {
        assert (Blocks(front) + [last])[..|Blocks(front)|] == Blocks(front);
      } else {
        assert Blocks(items) == Blocks(front);
      }
    }
  }

  // -------------------------------------------------------------------------------------------
  // Runs
  // -------------------------------------------------------------------------------------------

  function Range(lo: nat, hi: nat): seq<nat>
    requires lo <= hi
  {
    seq(hi - lo, i requires 0 <= i => lo + i)
  }

  function Bind(names: Env, h: seq<nat>): Env
    requires EnvOk(names, |h|)
  {
    names.(proms := seq(|names.proms|, i requires 0 <= i < |names.proms| => h[names.proms[i]]))
  }

  /** The state and the handles of the promises that the blocks have made. */
  datatype Played = Played(st: State, h: seq<nat>)

  lemma {:induction false} ExecMakes(s: Script, env: Env, cur: int, st: State)
    requires EnvOk(env, |st.cells|) && cur < |st.gens| && Scoped(s, |env.proms|, 0 <= cur)
    ensures |Exec(s, env, cur, st).0.cells| == |st.cells| + Makes(s, env.data)
    decreases s, 0
  {
    match s
    case If(t, a, b) => ExecMakes(if t(env.data) then a else b, env, cur, st);
    case Do(op, k) =>
      var r := LibraryCall(op, env, st);
      LibraryMakes(op, env, st);
      ExecMakes(k, r.0, cur, r.1);
    case Call(body, k) =>
      CallMakes(st, env, body);
      ExecMakes(k, env.WithPromise(|st.cells|), cur, CallAsync(st, env, body));
    case Await(r, kv, ke) =>
    case Return(_) =>
    case ReturnPromise(_) =>
    case Throw(_) =>
  }

  lemma LibraryMakes(op: Op, env: Env, st: State)
    requires ScopedOp(op, |env.proms|) && EnvOk(env, |st.cells|)
    ensures var r := LibraryCall(op, env, st);
            |r.1.cells| == |st.cells| + Binds(op) && r.0.data == env.data
  {
  }

  lemma {:induction false} CallMakes(st: State, env: Env, body: Script)
    requires EnvOk(env, |st.cells|) && Scoped(body, |env.proms|, true)
    ensures |CallAsync(st, env, body).cells| == |st.cells| + 1 + Makes(body, env.data)
    decreases body, 1
  {
    ExecMakes(body, env, |st.gens|, StartAsync(st, env, body));
  }

  function EventOf(item: Item, h: seq<nat>): Event
    requires item.Block? ==> EnvOk(item.names, |h|)
  {
    if item.Block? then Code(item.s, Bind(item.names, h)) else PromiseTask
  }

  /** An item adds the handles of the promises that its block makes; a drain adds none. */
  function Turn(item: Item, p: Played): Played
    requires Ready(p.st) && (item.Block? ==> EnvOk(item.names, |p.h|)) && Enabled(EventOf(item, p.h), p.st)
  {
    var st := Apply(EventOf(item, p.h), p.st);
    Played(st, if item.Block? && |p.st.cells| <= |st.cells| then p.h + Range(|p.st.cells|, |st.cells|) else p.h)
  }

  lemma TurnInv(item: Item, p: Played)
    requires Ready(p.st) && forall i :: 0 <= i < |p.h| ==> p.h[i] < |p.st.cells|
    requires item.Block? ==> Scoped(item.s, |item.names.proms|, false) && EnvOk(item.names, |p.h|)
    ensures Enabled(EventOf(item, p.h), p.st)
    ensures var q := Turn(item, p);
            && Ready(q.st) && Evolves(p.st, q.st) && (forall i :: 0 <= i < |q.h| ==> q.h[i] < |q.st.cells|)
            && |q.h| == |p.h| + if item.Block? then Makes(item.s, item.names.data) else 0
  {
    ApplyInv(EventOf(item, p.h), p.st);
    if item.Block? { ExecMakes(item.s, Bind(item.names, p.h), -1, p.st); }
  }

  ghost function Play(items: seq<Item>): (r: Played)
    requires Playable(items)
    ensures Ready(r.st) && |r.h| == Made(items) && forall i :: 0 <= i < |r.h| ==> r.h[i] < |r.st.cells|
  {
    if items == [] then Played(INIT, [])
    else
      TurnInv(items[|items| - 1], Play(items[..|items| - 1]));
      Turn(items[|items| - 1], Play(items[..|items| - 1]))
  }

  lemma {:induction false} PlaySolving(items: seq<Item>)
    requires Playable(items)
    ensures Solving(Play(items).st, {})
  {
    if items == [] {
      assert Grounded(INIT);
    } else {
      var p, last := Play(items[..|items| - 1]), items[|items| - 1];
      PlaySolving(items[..|items| - 1]);
      TurnInv(last, p);
      ApplySolving(EventOf(last, p.h), p.st);
    }
  }

  // -------------------------------------------------------------------------------------------
  // Code does the same under other handles
  // -------------------------------------------------------------------------------------------

  /** Origins and calls are the same, whatever happened to fates, lists and queue. */
  ghost predicate SameOutline(a: State, b: State) {
    |a.cells| == |b.cells|
    && forall c :: 0 <= c < |a.cells| ==> b.cells[c].def == a.cells[c].def && b.cells[c].calls == a.cells[c].calls
  }

  lemma EnvLonger(x: Env, y: Env, h: seq<nat>, g: seq<nat>)
    requires EnvRenamed(x, y, h) && h <= g
    ensures EnvRenamed(x, y, g)
  {
    forall i | 0 <= i < |x.proms| ensures x.proms[i] < |g| && y.proms[i] == g[x.proms[i]] {
      assert g[x.proms[i]] == h[x.proms[i]];
    }
  }

  /** How many calls had been made on the promises before. */
  datatype Old = Old(a: seq<nat>, b: seq<nat>)

  const NO_CALLS := Old([], [])

  function Since(ms: seq<nat>, i: nat): nat {
    if i < |ms| then ms[i] else 0
  }

  /** The calls from number `m` on of the one are those from number `n` on of the other. */
  ghost predicate CallsAlike(x: Cell, y: Cell, h: seq<nat>, m: nat, n: nat) {
    && m <= |x.calls| && n <= |y.calls| && |x.calls| - m == |y.calls| - n
    && forall i :: 0 <= i < |x.calls| - m ==> NewCallAlike(x.calls, y.calls, h, m, n, i)
  }

  ghost predicate NewCallAlike(xs: seq<CtxCall>, ys: seq<CtxCall>, h: seq<nat>, m: nat, n: nat, i: nat) {
    m + i < |xs| && n + i < |ys| && CallRenamed(xs[m + i], ys[n + i], h)
  }

  ghost predicate CellAlike(x: Cell, y: Cell, h: seq<nat>, m: nat, n: nat) {
    DefRenamed(x.def, y.def, h) && (x.def.Root? ==> CallsAlike(x, y, h, m, n))
  }

  /** The system `a` sits in the system `b` as far as origins and new calls go. */
  ghost predicate Alike(a: seq<Cell>, b: seq<Cell>, h: seq<nat>, o: Old) {
    && |h| == |a| && |o.a| <= |a| && |o.b| <= |a|
    && (forall i :: 0 <= i < |a| ==> h[i] < |b|)
    && (forall i {:trigger a[i]} :: 0 <= i < |a| ==> CellAlike(a[i], b[h[i]], h, Since(o.a, i), Since(o.b, i)))
    && (forall i, j :: 0 <= i < j < |a| ==> h[i] != h[j])
  }

  lemma AlikeIsRenamed(a: seq<Cell>, b: seq<Cell>, h: seq<nat>)
    ensures Alike(a, b, h, NO_CALLS) <==> Renamed(a, b, h)
  {
    if Renamed(a, b, h) {
      forall i | 0 <= i < |a| ensures CellAlike(a[i], b[h[i]], h, 0, 0) { assert CellRenamed(a[i], b[h[i]], h); }
    }
    if Alike(a, b, h, NO_CALLS) {
      forall i | 0 <= i < |a| ensures CellRenamed(a[i], b[h[i]], h) { AlikeCell(a[i], b[h[i]], h); }
    }
  }

  lemma AlikeCell(x: Cell, y: Cell, h: seq<nat>)
    requires CellAlike(x, y, h, 0, 0)
    ensures CellRenamed(x, y, h)
  {
    if x.def.Root? {
      forall i | 0 <= i < |x.calls| ensures CallRenamed(x.calls[i], y.calls[i], h) {
        assert NewCallAlike(x.calls, y.calls, h, 0, 0, i);
      }
    }
  }

  lemma DefLonger(x: Def, y: Def, h: seq<nat>, g: seq<nat>)
    requires DefRenamed(x, y, h) && h <= g
    ensures DefRenamed(x, y, g)
  {
    match x
    case Chained(_, _, c) => if c.Closure? { EnvLonger(c.env, y.handler.env, h, g); }
    case AsyncOf(env, _) => EnvLonger(env, y.env, h, g);
    case _ =>
  }

  lemma CellLonger(x: Cell, y: Cell, h: seq<nat>, g: seq<nat>, m: nat, n: nat)
    requires CellAlike(x, y, h, m, n) && h <= g
    ensures CellAlike(x, y, g, m, n)
  {
    DefLonger(x.def, y.def, h, g);
    if x.def.Root? {
      forall i | 0 <= i < |x.calls| - m ensures NewCallAlike(x.calls, y.calls, g, m, n, i) {
        assert NewCallAlike(x.calls, y.calls, h, m, n, i);
      }
    }
  }

  lemma OutlineRenamed(a: State, b: State, a': State, b': State, h: seq<nat>, o: Old)
    requires Alike(a.cells, b.cells, h, o) && SameOutline(a, a') && SameOutline(b, b')
    ensures Alike(a'.cells, b'.cells, h, o)
  {
    forall i | 0 <= i < |a'.cells|
      ensures h[i] < |b'.cells| && CellAlike(a'.cells[i], b'.cells[h[i]], h, Since(o.a, i), Since(o.b, i))
    {
      assert CellAlike(a.cells[i], b.cells[h[i]], h, Since(o.a, i), Since(o.b, i));
    }
  }

  /** One new promise on either side. */
  lemma AllocRenamed(a: State, b: State, x: Def, y: Def, f: Fate, g: Fate, h: seq<nat>, o: Old)
    requires Alike(a.cells, b.cells, h, o) && DefRenamed(x, y, h)
    ensures Alike(Alloc(a, x, f).cells, Alloc(b, y, g).cells, h + [|b.cells|], o)
  {
    var h' := h + [|b.cells|];
    forall i | 0 <= i <= |a.cells|
      ensures h'[i] <= |b.cells|
      ensures CellAlike(Alloc(a, x, f).cells[i], Alloc(b, y, g).cells[h'[i]], h', Since(o.a, i), Since(o.b, i))
    {
      if i < |a.cells| {
        CellLonger(a.cells[i], b.cells[h[i]], h, h', Since(o.a, i), Since(o.b, i));
      } else {
        CellLonger(FreshCell(x, f), FreshCell(y, g), h, h', 0, 0);
      }
    }
  }

  lemma RecordRenamed(a: State, b: State, p: nat, x: CtxCall, y: CtxCall, h: seq<nat>, o: Old)
    requires Alike(a.cells, b.cells, h, o) && p < |a.cells| && CallRenamed(x, y, h)
    ensures Alike(Record(a, p, x).cells, Record(b, h[p], y).cells, h, o)
  {
    var a', b' := Record(a, p, x), Record(b, h[p], y);
    forall i | 0 <= i < |a.cells|
      ensures h[i] < |b'.cells| && CellAlike(a'.cells[i], b'.cells[h[i]], h, Since(o.a, i), Since(o.b, i))
    {
      RecordAlike(a.cells[i], b.cells[h[i]], x, y, h, Since(o.a, i), Since(o.b, i));
      assert i != p ==> h[i] != h[p];
    }
  }

  lemma RecordAlike(c: Cell, d: Cell, x: CtxCall, y: CtxCall, h: seq<nat>, m: nat, n: nat)
    requires CellAlike(c, d, h, m, n) && CallRenamed(x, y, h)
    ensures CellAlike(c.(calls := c.calls + [x]), d.(calls := d.calls + [y]), h, m, n)
  {
    if c.def.Root? {
      forall i | 0 <= i < |c.calls| + 1 - m ensures NewCallAlike(c.calls + [x], d.calls + [y], h, m, n, i) {
        if m + i < |c.calls| { assert NewCallAlike(c.calls, d.calls, h, m, n, i); }
      }
    }
  }

  lemma RangeSplit(h: seq<nat>, lo: nat, mid: nat, hi: nat)
    requires lo <= mid <= hi
    ensures h + Range(lo, mid) + Range(mid, hi) == h + Range(lo, hi)
  {
  }

  ghost predicate OutcomeRenamed(x: Outcome, y: Outcome, h: seq<nat>) {
    match x
    case ReturnedPromise(p) => p < |h| && y == ReturnedPromise(h[p])
    case _ => y == x
  }

  lemma RegisterOutline(st: State, side: Side, p: nat, c: Handler)
    requires p < |st.cells|
    ensures SameOutline(Alloc(st, Chained(side, p, c), Pending), Register(st, side, p, c))
  {
  }

  lemma RegisterRenamed(a: State, b: State, side: Side, p: nat, x: Handler, y: Handler, h: seq<nat>, o: Old)
    requires Alike(a.cells, b.cells, h, o) && p < |a.cells| && HandlerRenamed(x, y, h)
    ensures Alike(Register(a, side, p, x).cells, Register(b, side, h[p], y).cells, h + [|b.cells|], o)
    ensures |Register(b, side, h[p], y).cells| == |b.cells| + 1
  {
    AllocRenamed(a, b, Chained(side, p, x), Chained(side, h[p], y), Pending, Pending, h, o);
    RegisterOutline(a, side, p, x);
    RegisterOutline(b, side, h[p], y);
    OutlineRenamed(Alloc(a, Chained(side, p, x), Pending), Alloc(b, Chained(side, h[p], y), Pending),
                   Register(a, side, p, x), Register(b, side, h[p], y), h + [|b.cells|], o);
  }

  lemma ContextRenamed(a: State, b: State, p: nat, h: seq<nat>, o: Old)
    requires Alike(a.cells, b.cells, h, o) && p < |a.cells|
    ensures HasContext(a, p) <==> HasContext(b, h[p])
  {
    assert CellAlike(a.cells[p], b.cells[h[p]], h, Since(o.a, p), Since(o.b, p));
  }

  lemma CtxSettleRenamed(a: State, b: State, p: nat, f: Settled, h: seq<nat>, o: Old)
    requires Alike(a.cells, b.cells, h, o) && p < |a.cells|
    ensures Alike(CtxSettle(a, p, f).cells, CtxSettle(b, h[p], f).cells, h, o)
    ensures |CtxSettle(b, h[p], f).cells| == |b.cells|
  {
    RecordRenamed(a, b, p, Direct(f), Direct(f), h, o);
    OutlineRenamed(Record(a, p, Direct(f)), Record(b, h[p], Direct(f)), CtxSettle(a, p, f), CtxSettle(b, h[p], f), h,
                   o);
  }

  lemma CtxFollowRenamed(a: State, b: State, p: nat, q: nat, h: seq<nat>, o: Old)
    requires Alike(a.cells, b.cells, h, o) && p < |a.cells| && q < |a.cells|
    ensures Alike(CtxFollow(a, p, q).cells, CtxFollow(b, h[p], h[q]).cells, h, o)
    ensures |CtxFollow(b, h[p], h[q]).cells| == |b.cells|
  {
    RecordRenamed(a, b, p, Following(q), Following(h[q]), h, o);
    OutlineRenamed(Record(a, p, Following(q)), Record(b, h[p], Following(h[q])),
                   CtxFollow(a, p, q), CtxFollow(b, h[p], h[q]), h, o);
  }

  lemma AllocSettledRenamed(a: State, b: State, isVoid: bool, f: Settled, h: seq<nat>, o: Old)
    requires Alike(a.cells, b.cells, h, o)
    ensures Alike(AllocSettled(a, isVoid, f).cells, AllocSettled(b, isVoid, f).cells, h + [|b.cells|], o)
    ensures |AllocSettled(b, isVoid, f).cells| == |b.cells| + 1
  {
    AllocRenamed(a, b, Given(f), Given(f), Pending, Pending, h, o);
    OutlineRenamed(Alloc(a, Given(f), Pending), Alloc(b, Given(f), Pending),
                   AllocSettled(a, isVoid, f), AllocSettled(b, isVoid, f), h + [|b.cells|], o);
  }

  /** What a library call adds to the handles. */
  function Bound(op: Op, b: State): seq<nat> {
    if Binds(op) == 1 then [|b.cells|] else []
  }

  lemma LibraryCallRenamed(op: Op, x: Env, y: Env, a: State, b: State, h: seq<nat>, o: Old)
    requires Alike(a.cells, b.cells, h, o) && EnvRenamed(x, y, h) && ScopedOp(op, |x.proms|)
    requires EnvOk(x, |a.cells|) && EnvOk(y, |b.cells|)
    ensures var ra, rb := LibraryCall(op, x, a), LibraryCall(op, y, b);
            && |rb.1.cells| == |b.cells| + Binds(op)
            && Alike(ra.1.cells, rb.1.cells, h + Bound(op, b), o)
  {
    assert h + [] == h;
    match op
    case New => AllocRenamed(a, b, Root, Root, Pending, Pending, h, o);
    case NewSettled(isVoid, f) => AllocSettledRenamed(a, b, isVoid, f(x.data), h, o);
    case Chain(side, r, isVoid, body) =>
      RegisterRenamed(a, b, side, x.proms[r], Closure(isVoid, x, body), Closure(isVoid, y, body), h, o);
    case SettleWith(r, f) =>
      ContextRenamed(a, b, x.proms[r], h, o);
      if HasContext(a, x.proms[r]) { CtxSettleRenamed(a, b, x.proms[r], f(x.data), h, o); }
    case Follow(r, q) =>
      ContextRenamed(a, b, x.proms[r], h, o);
      if HasContext(a, x.proms[r]) { CtxFollowRenamed(a, b, x.proms[r], x.proms[q], h, o); }
    case Oneshot(_) =>
    case Permanent(_) =>
  }

  lemma LibraryEnvRenamed(op: Op, x: Env, y: Env, a: State, b: State, h: seq<nat>)
    requires |h| == |a.cells| && EnvRenamed(x, y, h) && ScopedOp(op, |x.proms|)
    requires EnvOk(x, |a.cells|) && EnvOk(y, |b.cells|)
    ensures EnvRenamed(LibraryCall(op, x, a).0, LibraryCall(op, y, b).0, h + Bound(op, b))
  {
    EnvLonger(x, y, h, h + Bound(op, b));
  }

  lemma DoRenamed(op: Op, x: Env, y: Env, a: State, b: State, h: seq<nat>, o: Old)
    requires Alike(a.cells, b.cells, h, o) && EnvRenamed(x, y, h) && ScopedOp(op, |x.proms|)
    requires EnvOk(x, |a.cells|) && EnvOk(y, |b.cells|)
    ensures var ra, rb := LibraryCall(op, x, a), LibraryCall(op, y, b);
            var h' := h + Range(|b.cells|, |rb.1.cells|);
            Alike(ra.1.cells, rb.1.cells, h', o) && EnvRenamed(ra.0, rb.0, h')
  {
    LibraryCallRenamed(op, x, y, a, b, h, o);
    LibraryEnvRenamed(op, x, y, a, b, h);
    assert Bound(op, b) == Range(|b.cells|, |LibraryCall(op, y, b).1.cells|);
  }

  lemma ArmedRenamed(a: State, b: State, g: nat, g': nat, p: nat, h: seq<nat>, o: Old)
    requires Alike(a.cells, b.cells, h, o) && p < |a.cells|
    ensures |Armed(b, g', h[p]).cells| == |b.cells| + 2
    ensures Alike(Armed(a, g, p).cells, Armed(b, g', h[p]).cells, h + [|b.cells|] + [|b.cells| + 1], o)
  {
    RegisterRenamed(a, b, OnValue, p, Resume(g), Resume(g'), h, o);
    assert (h + [|b.cells|])[p] == h[p];
    RegisterRenamed(Register(a, OnValue, p, Resume(g)), Register(b, OnValue, h[p], Resume(g')), OnError, p,
                    Resume(g), Resume(g'), h + [|b.cells|], o);
  }

  lemma ArmRenamed(a: State, b: State, g: nat, g': nat, p: nat, x: Env, y: Env, kv: Script, ke: Script, h: seq<nat>,
                   o: Old)
    requires Alike(a.cells, b.cells, h, o) && p < |a.cells| && g < |a.gens| && g' < |b.gens|
    ensures |Arm(b, g', h[p], y, kv, ke).cells| == |b.cells| + 2
    ensures Alike(Arm(a, g, p, x, kv, ke).cells, Arm(b, g', h[p], y, kv, ke).cells,
                    h + Range(|b.cells|, |b.cells| + 2), o)
  {
    ArmedRenamed(a, b, g, g', p, h, o);
    assert h + [|b.cells|] + [|b.cells| + 1] == h + Range(|b.cells|, |b.cells| + 2);
  }

  /** What both sides come to, `n` promises having been there on the second before. */
  ghost predicate RanRenamed(ra: (State, Outcome), rb: (State, Outcome), n: nat, h: seq<nat>, o: Old) {
    && n <= |rb.0.cells|
    && Alike(ra.0.cells, rb.0.cells, h + Range(n, |rb.0.cells|), o)
    && OutcomeRenamed(ra.1, rb.1, h + Range(n, |rb.0.cells|))
  }

  lemma RanFrom(ra: (State, Outcome), rb: (State, Outcome), n: nat, mid: nat, h: seq<nat>, o: Old)
    requires n <= mid && RanRenamed(ra, rb, mid, h + Range(n, mid), o)
    ensures RanRenamed(ra, rb, n, h, o)
  {
    RangeSplit(h, n, mid, |rb.0.cells|);
  }

  lemma EndRenamed(s: Script, x: Env, y: Env, a: State, b: State, h: seq<nat>, o: Old)
    requires Alike(a.cells, b.cells, h, o) && EnvRenamed(x, y, h)
    requires IsEnd(s, |x.proms|)
    ensures RanRenamed((a, EndOf(s, x)), (b, EndOf(s, y)), |b.cells|, h, o)
  {
    assert h + Range(|b.cells|, |b.cells|) == h;
  }

  /** The same code makes the same promises and the same calls on either side. */
  lemma {:induction false} ExecRenamed(s: Script, x: Env, y: Env, cur: int, cur': int, a: State, b: State, h: seq<nat>,
                                       o: Old)
    requires Alike(a.cells, b.cells, h, o) && EnvRenamed(x, y, h)
    requires EnvOk(x, |a.cells|) && EnvOk(y, |b.cells|) && cur < |a.gens| && cur' < |b.gens|
    requires (0 <= cur <==> 0 <= cur') && Scoped(s, |x.proms|, 0 <= cur)
    ensures RanRenamed(Exec(s, x, cur, a), Exec(s, y, cur', b), |b.cells|, h, o)
    decreases s, 1
  {
    match s
    case If(t, u, v) => ExecRenamed(if t(x.data) then u else v, x, y, cur, cur', a, b, h, o);
    case Do(op, k) => ExecDoRenamed(op, k, x, y, cur, cur', a, b, h, o);
    case Call(body, k) => ExecCallRenamed(body, k, x, y, cur, cur', a, b, h, o);
    case Await(r, kv, ke) => ArmRenamed(a, b, cur, cur', x.proms[r], x, y, kv, ke, h, o);
    case _ =>
      EndRenamed(s, x, y, a, b, h, o);
  }

  lemma {:induction false} ExecDoRenamed(op: Op, k: Script, x: Env, y: Env, cur: int, cur': int, a: State, b: State,
                                         h: seq<nat>, o: Old)
    requires Alike(a.cells, b.cells, h, o) && EnvRenamed(x, y, h)
    requires EnvOk(x, |a.cells|) && EnvOk(y, |b.cells|) && cur < |a.gens| && cur' < |b.gens|
    requires (0 <= cur <==> 0 <= cur') && Scoped(Do(op, k), |x.proms|, 0 <= cur)
    ensures RanRenamed(Exec(Do(op, k), x, cur, a), Exec(Do(op, k), y, cur', b), |b.cells|, h, o)
    decreases Do(op, k), 0
  {
    var n, ra, rb := |b.cells|, LibraryCall(op, x, a), LibraryCall(op, y, b);
    DoRenamed(op, x, y, a, b, h, o);
    ExecRenamed(k, ra.0, rb.0, cur, cur', ra.1, rb.1, h + Range(n, |rb.1.cells|), o);
    RanFrom(Exec(k, ra.0, cur, ra.1), Exec(k, rb.0, cur', rb.1), n, |rb.1.cells|, h, o);
  }

  lemma {:induction false} ExecCallRenamed(body: Script, k: Script, x: Env, y: Env, cur: int, cur': int, a: State,
                                           b: State, h: seq<nat>, o: Old)
    requires Alike(a.cells, b.cells, h, o) && EnvRenamed(x, y, h)
    requires EnvOk(x, |a.cells|) && EnvOk(y, |b.cells|) && cur < |a.gens| && cur' < |b.gens|
    requires (0 <= cur <==> 0 <= cur') && Scoped(Call(body, k), |x.proms|, 0 <= cur)
    ensures RanRenamed(Exec(Call(body, k), x, cur, a), Exec(Call(body, k), y, cur', b), |b.cells|, h, o)
    decreases Call(body, k), 0
  {
    var n, a1, b1 := |b.cells|, CallAsync(a, x, body), CallAsync(b, y, body);
    var x1, y1 := x.WithPromise(|a.cells|), y.WithPromise(n);
    CallAsyncRenamed(x, y, body, a, b, h, o);
    ExecRenamed(k, x1, y1, cur, cur', a1, b1, h + Range(n, |b1.cells|), o);
    RanFrom(Exec(k, x1, cur, a1), Exec(k, y1, cur', b1), n, |b1.cells|, h, o);
  }

  lemma {:induction false} CallAsyncRenamed(x: Env, y: Env, body: Script, a: State, b: State, h: seq<nat>, o: Old)
    requires Alike(a.cells, b.cells, h, o) && EnvRenamed(x, y, h)
    requires EnvOk(x, |a.cells|) && EnvOk(y, |b.cells|) && Scoped(body, |x.proms|, true)
    ensures var a1, b1 := CallAsync(a, x, body), CallAsync(b, y, body);
            var h1 := h + Range(|b.cells|, |b1.cells|);
            Alike(a1.cells, b1.cells, h1, o) && EnvRenamed(x.WithPromise(|a.cells|), y.WithPromise(|b.cells|), h1)
    decreases body, 2
  {
    var n := |b.cells|;
    var a0, b0 := StartAsync(a, x, body), StartAsync(b, y, body);
    StartRenamed(x, y, body, a, b, h, o);
    ExecRenamed(body, x, y, |a.gens|, |b.gens|, a0, b0, h + [n], o);
    FinishRenamed(Exec(body, x, |a.gens|, a0), Exec(body, y, |b.gens|, b0), |a.gens|, |b.gens|, |a.cells|, n, h, o);
    HandleRenamed(x, y, h, n, |CallAsync(b, y, body).cells|);
  }

  lemma StartRenamed(x: Env, y: Env, body: Script, a: State, b: State, h: seq<nat>, o: Old)
    requires Alike(a.cells, b.cells, h, o) && EnvRenamed(x, y, h)
    ensures Alike(StartAsync(a, x, body).cells, StartAsync(b, y, body).cells, h + [|b.cells|], o)
    ensures EnvRenamed(x, y, h + [|b.cells|])
  {
    AllocRenamed(a, b, AsyncOf(x, body), AsyncOf(y, body), Pending, Pending, h, o);
    EnvLonger(x, y, h, h + [|b.cells|]);
  }

  /** The ends of two bodies whose promises are `p` and `n`. */
  lemma FinishRenamed(ra: (State, Outcome), rb: (State, Outcome), f: nat, g: nat, p: nat, n: nat, h: seq<nat>, o: Old)
    requires RanRenamed(ra, rb, n + 1, h + [n], o)
    requires f < |ra.0.gens| && p < |ra.0.cells| && (ra.1.ReturnedPromise? ==> ra.1.p < |ra.0.cells|)
    requires g < |rb.0.gens| && n < |rb.0.cells| && (rb.1.ReturnedPromise? ==> rb.1.p < |rb.0.cells|)
    ensures Alike(FinishGen(ra.0, f, p, ra.1).cells, FinishGen(rb.0, g, n, rb.1).cells,
                  h + Range(n, |rb.0.cells|), o)
  {
    assert h + [n] == h + Range(n, n + 1);
    RanFrom(ra, rb, n, n + 1, h, o);
    FinishOutline(ra.0, f, p, ra.1);
    FinishOutline(rb.0, g, n, rb.1);
    OutlineRenamed(ra.0, rb.0, FinishGen(ra.0, f, p, ra.1), FinishGen(rb.0, g, n, rb.1),
                   h + Range(n, |rb.0.cells|), o);
  }

  lemma HandleRenamed(x: Env, y: Env, h: seq<nat>, n: nat, m: nat)
    requires EnvRenamed(x, y, h) && n < m
    ensures EnvRenamed(x.WithPromise(|h|), y.WithPromise(n), h + Range(n, m))
  {
    EnvLonger(x, y, h, h + Range(n, m));
  }

  lemma FinishOutline(st: State, g: nat, p: nat, o: Outcome)
    requires g < |st.gens| && p < |st.cells| && (o.ReturnedPromise? ==> o.p < |st.cells|)
    ensures SameOutline(st, FinishGen(st, g, p, o))
  {
  }

  // -------------------------------------------------------------------------------------------
  // A drain of quiet handlers makes no calls
  // -------------------------------------------------------------------------------------------

  /** Code that settles and redirects no promise, and makes none that others could: it computes, throws,
      returns a promise, awaits, calls async functions and registers handlers of the same kind, makes settled
      promises and adds tasks. */
  predicate Quiet(s: Script) {
    match s
    case Do(op, k) => QuietOp(op) && Quiet(k)
    case Call(body, k) => Quiet(body) && Quiet(k)
    case If(_, a, b) => Quiet(a) && Quiet(b)
    case Await(_, kv, ke) => Quiet(kv) && Quiet(ke)
    case _ => true
  }

  predicate QuietOp(op: Op) {
    !op.New? && !op.SettleWith? && !op.Follow? && (op.Chain? ==> Quiet(op.body))
  }

  lemma {:induction false} QuietIsRootless(s: Script)
    requires Quiet(s)
    ensures Rootless(s)
  {
    match s
    case Do(op, k) =>
      if op.Chain? { QuietIsRootless(op.body); }
      QuietIsRootless(k);
    case Call(body, k) =>
      QuietIsRootless(body);
      QuietIsRootless(k);
    case If(_, a, b) =>
      QuietIsRootless(a);
      QuietIsRootless(b);
    case Await(_, kv, ke) =>
      QuietIsRootless(kv);
      QuietIsRootless(ke);
    case _ =>
  }

  /** A lawful promise whose own handler or async body is quiet. */
  predicate Tidy(c: Cell) {
    match c.def
    case Root => |c.calls| <= 1
    case Given(_) => true
    case Chained(_, _, h) => h.Closure? ==> Quiet(h.body)
    case AsyncOf(_, body) => Quiet(body)
  }

  ghost predicate AllTidy(cells: seq<Cell>) {
    forall c :: 0 <= c < |cells| ==> Tidy(cells[c])
  }

  lemma TidyIsLawful(cells: seq<Cell>)
    requires AllTidy(cells)
    ensures AllLawful(cells)
  {
    forall c | 0 <= c < |cells| ensures Lawful(cells[c]) {
      match cells[c].def
      case Chained(_, _, h) => if h.Closure? { QuietIsRootless(h.body); }
      case AsyncOf(_, body) => QuietIsRootless(body);
      case _ =>
    }
  }

  /** All but the roots are tidy. */
  ghost predicate Tame(st: State) {
    forall c :: 0 <= c < |st.cells| && !st.cells[c].def.Root? ==> Tidy(st.cells[c])
  }

  /** What is left of quiet code is quiet. */
  lemma {:induction false} ReachesQuiet(cells: seq<Cell>, F: Fates, s0: Script, env0: Env, hs: seq<nat>, s: Script,
                                        env: Env)
    requires Quiet(s0) && Reaches(cells, F, s0, env0, hs, s, env)
    ensures Quiet(s)
    decreases s0
  {
    if !(hs == [] && s0 == s && env0 == env) {
      match s0
      case If(t, a, b) => ReachesQuiet(cells, F, if t(env0.data) then a else b, env0, hs, s, env);
      case Await(r, kv, ke) =>
        var f := F(env0.proms[r]);
        ReachesQuiet(cells, F, if f.Resolved? then kv else ke, env0.WithArg(f), hs, s, env);
      case Do(op, k) =>
        if Binds(op) == 0 { ReachesQuiet(cells, F, k, env0, hs, s, env); }
        else { ReachesQuiet(cells, F, k, env0.WithPromise(hs[0]), hs[1..], s, env); }
      case Call(_, k) => ReachesQuiet(cells, F, k, env0.WithPromise(hs[0]), hs[1..], s, env);
    }
  }

  lemma SuspendedQuiet(st: State, g: nat)
    requires Solving(st, {}) && Tame(st) && g < |st.gens| && st.gens[g].status.SUSPENDED?
    ensures Quiet(st.gens[g].status.onValue) && Quiet(st.gens[g].status.onError)
  {
    var o, s, F := st.gens[g].owner, st.gens[g].status, FateOf(st);
    assert GenOk(st, g);
    var r: nat :| r < |s.env.proms| && s.env.proms[r] == s.awaited
                  && At(st.cells, F, o, Await(r, s.onValue, s.onError), s.env);
    var hs :| MadeAfter(hs, o, |st.cells|)
              && Reaches(st.cells, F, CodeOf(st.cells[o]), StartOf(st.cells[o], F), hs,
                         Await(r, s.onValue, s.onError), s.env);
    ReachesQuiet(st.cells, F, CodeOf(st.cells[o]), StartOf(st.cells[o], F), hs, Await(r, s.onValue, s.onError), s.env);
  }

  /** No call is made, and what is new is tidy and no root. */
  ghost predicate Calm(a: State, b: State) {
    && |a.cells| <= |b.cells|
    && (forall c :: 0 <= c < |a.cells| ==> b.cells[c].def == a.cells[c].def && b.cells[c].calls == a.cells[c].calls)
    && (forall c :: |a.cells| <= c < |b.cells| ==> !b.cells[c].def.Root? && Tidy(b.cells[c]))
  }

  lemma CalmTrans(a: State, b: State, c: State)
    requires Calm(a, b) && Calm(b, c)
    ensures Calm(a, c)
  {
  }

  lemma {:induction false} QuietCalm(s: Script, env: Env, cur: int, st: State)
    requires Quiet(s) && EnvOk(env, |st.cells|) && cur < |st.gens| && Scoped(s, |env.proms|, 0 <= cur)
    ensures Calm(st, Exec(s, env, cur, st).0)
    decreases s, 0
  {
    match s
    case If(t, a, b) => QuietCalm(if t(env.data) then a else b, env, cur, st);
    case Do(op, k) =>
      var r := LibraryCall(op, env, st);
      LibraryCalm(op, env, st);
      QuietCalm(k, r.0, cur, r.1);
      CalmTrans(st, r.1, Exec(s, env, cur, st).0);
    case Call(body, k) =>
      QuietCallCalm(st, env, body);
      QuietCalm(k, env.WithPromise(|st.cells|), cur, CallAsync(st, env, body));
      CalmTrans(st, CallAsync(st, env, body), Exec(s, env, cur, st).0);
    case Await(r, kv, ke) => ArmCalm(st, cur, env.proms[r], env, kv, ke);
    case Return(_) =>
    case ReturnPromise(_) =>
    case Throw(_) =>
  }

  lemma LibraryCalm(op: Op, env: Env, st: State)
    requires QuietOp(op) && ScopedOp(op, |env.proms|) && EnvOk(env, |st.cells|)
    ensures Calm(st, LibraryCall(op, env, st).1)
  {
  }

  lemma ArmCalm(st: State, g: nat, p: nat, env: Env, kv: Script, ke: Script)
    requires g < |st.gens| && p < |st.cells|
    ensures Calm(st, Arm(st, g, p, env, kv, ke))
  {
    var st1 := Register(st, OnValue, p, Resume(g));
    assert Calm(st, st1);
    assert Calm(st1, Register(st1, OnError, p, Resume(g)));
    CalmTrans(st, st1, Register(st1, OnError, p, Resume(g)));
  }

  lemma {:induction false} QuietCallCalm(st: State, env: Env, body: Script)
    requires Quiet(body) && EnvOk(env, |st.cells|) && Scoped(body, |env.proms|, true)
    ensures Calm(st, CallAsync(st, env, body))
    decreases body, 1
  {
    var st1 := StartAsync(st, env, body);
    assert Calm(st, st1);
    QuietCalm(body, env, |st.gens|, st1);
    var r := Exec(body, env, |st.gens|, st1);
    FinishOutline(r.0, |st.gens|, |st.cells|, r.1);
    CalmTrans(st, st1, r.0);
    CalmTrans(st, r.0, CallAsync(st, env, body));
  }

  lemma ConcludeCalm(st: State, child: nat, isVoid: bool, o: Outcome)
    requires child < |st.cells| && (o.ReturnedPromise? ==> o.p < |st.cells|)
    ensures Calm(st, Conclude(st, child, isVoid, o))
  {
  }

  lemma HeadCalm(st: State, h: Handler, child: nat)
    requires CanBegin(st, h, child) && child < |st.cells| && Idle(st) && Solving(st, {}) && Tame(st)
    ensures Calm(Begin(st, h, child), RunHead(st, h, child).0)
  {
    var st1, arg := Begin(st, h, child), st.cells[st.queue[0]].fate;
    BeginPassed(st, h, child);
    NextHandlerReady(st);
    match h {
      case Closure(_, env, body) =>
        assert Tidy(st.cells[child]);
        QuietCalm(body, env.WithArg(arg), -1, st1);
      case Resume(g) =>
        assert SuspendedOk(st, g);
        SuspendedQuiet(st, g);
        ResumeCalm(st1, g, st.gens[g].status, arg);
    }
  }

  lemma HandlerCalm(st: State, h: Handler, child: nat)
    requires CanBegin(st, h, child) && child < |st.cells| && Idle(st) && Solving(st, {}) && Tame(st)
    ensures Calm(st, CallHandler(st, h, child))
  {
    var st1, r := Begin(st, h, child), RunHead(st, h, child);
    HeadCalm(st, h, child);
    HeadOutcome(st, h, child);
    ConcludeCalm(r.0, child, IsVoid(h), r.1);
    BeginPassed(st, h, child);
    AdvanceOutline(st, st1);
    CalmTrans(st1, r.0, CallHandler(st, h, child));
  }

  lemma AdvanceOutline(st: State, b: State)
    requires QueueInv(st) && st.queue != [] && Head(st) != [] && b.cells == Advance(st, st.queue[0]).cells
    ensures SameOutline(st, b)
  {
  }

  lemma ResumeCalm(st: State, g: nat, was: GenStatus, arg: Settled)
    requires g < |st.gens| && was.SUSPENDED? && FrameOk(Coroutine(st.gens[g].owner, was), |st.cells|)
    requires Quiet(was.onValue) && Quiet(was.onError)
    ensures Calm(st, RunResume(st, g, was, arg).0)
  {
    var s, env := if arg.Resolved? then was.onValue else was.onError, was.env.WithArg(arg);
    QuietCalm(s, env, g, st);
    var r := Exec(s, env, g, st);
    FinishOutline(r.0, g, st.gens[g].owner, r.1);
    CalmTrans(st, r.0, FinishGen(r.0, g, st.gens[g].owner, r.1));
  }

  lemma StepCalm(st: State)
    requires Ready(st) && st.queue != [] && Solving(st, {}) && Tame(st)
    ensures Calm(st, Step(st))
  {
    if Head(st) != [] {
      match Head(st)[0]
      case Adopt(o) =>
        assert ListOk(st, st.queue[0], Way(st.cells[st.queue[0]].fate));
        assert WrapperOk(st, st.queue[0], Way(st.cells[st.queue[0]].fate), Head(st)[0]);
        AdvanceOutline(st, Advance(st, st.queue[0]));
      case Handle(h, child) =>
        NextHandlerReady(st);
        HandlerCalm(st, h, child);
    }
  }

  /** What a drain of quiet handlers keeps. */
  ghost predicate Calming(st: State) {
    Ready(st) && Solving(st, {}) && Tame(st)
  }

  lemma CalmStep(st: State)
    requires Calming(st) && st.queue != []
    ensures Calming(Step(st)) && Calm(st, Step(st)) && Drain(st) == Drain(Step(st))
    ensures Total(Step(st)) < Total(st) || (Total(Step(st)) <= Total(st) && |Step(st).queue| < |st.queue|)
  {
    StepInv(st);
    StepSolving(st);
    StepCalm(st);
  }

  lemma {:induction false} DrainCalm(st: State)
    requires Calming(st)
    ensures Calm(st, Drain(st))
    decreases Total(st), |st.queue|
  {
    if st.queue != [] {
      CalmStep(st);
      DrainCalm(Step(st));
      CalmTrans(st, Step(st), Drain(st));
    }
  }

  // -------------------------------------------------------------------------------------------
  // The schedule does not matter
  // -------------------------------------------------------------------------------------------

  /** Promises that the blocks did not make themselves are tidy and no roots. */
  ghost predicate OthersCalm(p: Played) {
    forall c :: 0 <= c < |p.st.cells| && c !in p.h ==> !p.st.cells[c].def.Root? && Tidy(p.st.cells[c])
  }

  /** The promises of a run are those of the run of the same blocks without any drain, under other handles. */
  ghost predicate Matches(free: Played, p: Played) {
    Renamed(free.st.cells, p.st.cells, p.h) && OthersCalm(p)
  }

  lemma RenamedTidy(x: Cell, y: Cell, h: seq<nat>)
    requires CellRenamed(x, y, h) && Tidy(x)
    ensures Tidy(y)
  {
  }

  lemma MatchesTidy(free: Played, p: Played)
    requires Matches(free, p) && AllTidy(free.st.cells)
    ensures AllTidy(p.st.cells)
  {
    forall c | 0 <= c < |p.st.cells| ensures Tidy(p.st.cells[c]) {
      if c in p.h {
        var i :| 0 <= i < |p.h| && p.h[i] == c;
        RenamedTidy(free.st.cells[i], p.st.cells[c], p.h);
      }
    }
  }

  lemma TaskMatches(free: Played, p: Played)
    requires Matches(free, p) && AllTidy(free.st.cells) && Ready(p.st) && Solving(p.st, {})
    ensures Matches(free, Played(Drain(p.st), p.h))
  {
    MatchesTidy(free, p);
    DrainCalm(p.st);
    var st := Drain(p.st);
    forall i | 0 <= i < |free.st.cells|
      ensures p.h[i] < |st.cells| && CellRenamed(free.st.cells[i], st.cells[p.h[i]], p.h)
    {
      assert CellRenamed(free.st.cells[i], p.st.cells[p.h[i]], p.h);
    }
  }

  lemma BlockMatches(free: Played, p: Played, s: Script, names: Env)
    requires Matches(free, p) && Ready(p.st) && Ready(free.st) && free.h == Range(0, |free.st.cells|)
    requires Scoped(s, |names.proms|, false) && EnvOk(names, |p.h|)
    ensures var x, y := Bind(names, free.h), Bind(names, p.h);
            var a, b := Exec(s, x, -1, free.st).0, Exec(s, y, -1, p.st).0;
            && |free.st.cells| <= |a.cells| && |p.st.cells| <= |b.cells|
            && Matches(Played(a, free.h + Range(|free.st.cells|, |a.cells|)),
                       Played(b, p.h + Range(|p.st.cells|, |b.cells|)))
  {
    var x, y := Bind(names, free.h), Bind(names, p.h);
    var b := Exec(s, y, -1, p.st).0;
    assert x == names;
    AlikeIsRenamed(free.st.cells, p.st.cells, p.h);
    ExecRenamed(s, x, y, -1, -1, free.st, p.st, p.h, NO_CALLS);
    ExecInv(s, y, -1, p.st);
    var h' := p.h + Range(|p.st.cells|, |b.cells|);
    forall c | |p.st.cells| <= c < |b.cells| ensures c in h' {
      assert h'[|p.h| + (c - |p.st.cells|)] == c;
    }
    BlockOthers(p, b, h');
    AlikeIsRenamed(Exec(s, x, -1, free.st).0.cells, b.cells, h');
  }

  lemma BlockOthers(p: Played, b: State, h: seq<nat>)
    requires OthersCalm(p) && p.h <= h && Evolves(p.st, b)
    requires forall c :: |p.st.cells| <= c < |b.cells| ==> c in h
    ensures OthersCalm(Played(b, h))
  {
    forall c | 0 <= c < |b.cells| && c !in h ensures !b.cells[c].def.Root? && Tidy(b.cells[c]) {
      forall i | 0 <= i < |p.h| ensures p.h[i] != c { assert h[i] == p.h[i]; }
      assert c !in p.h;
    }
  }

  lemma {:induction false} FreeHandles(items: seq<Item>)
    requires Playable(items) && Blocks(items) == items
    ensures Play(items).h == Range(0, |Play(items).st.cells|)
  {
    if items != [] {
      BlocksFront(items);
      FreeHandles(items[..|items| - 1]);
      TurnHandles(items[|items| - 1], Play(items[..|items| - 1]));
    }
  }

  lemma TurnHandles(item: Item, p: Played)
    requires Ready(p.st) && item.Block? && p.h == Range(0, |p.st.cells|)
    requires Scoped(item.s, |item.names.proms|, false) && EnvOk(item.names, |p.h|)
    ensures Enabled(EventOf(item, p.h), p.st) && Turn(item, p).h == Range(0, |Turn(item, p).st.cells|)
  {
    TurnInv(item, p);
    RangeSplit([], 0, |p.st.cells|, |Turn(item, p).st.cells|);
  }

  lemma {:induction false} BlocksLength(items: seq<Item>)
    ensures |Blocks(items)| <= |items| && (|Blocks(items)| == |items| ==> Blocks(items) == items)
  {
    if items != [] { BlocksLength(items[..|items| - 1]); }
  }

  lemma BlocksFront(items: seq<Item>)
    requires items != [] && Blocks(items) == items
    ensures items[|items| - 1].Block? && Blocks(items[..|items| - 1]) == items[..|items| - 1]
  {
    BlocksLength(items[..|items| - 1]);
  }

  lemma {:induction false} PlayMatches(items: seq<Item>)
    requires Playable(items) && Playable(Blocks(items)) && AllTidy(Play(Blocks(items)).st.cells)
    ensures Matches(Play(Blocks(items)), Play(items))
  {
    if items != [] {
      var front, last := items[..|items| - 1], items[|items| - 1];
      BlocksPlayable(front);
      if last.Block? {
        BlocksSnoc(front, last);
        FrontTidy(Blocks(items));
        PlayMatches(front);
        BlockTurn(front, last);
      } else {
        assert Blocks(items) == Blocks(front);
        PlayMatches(front);
        PlaySolving(front);
        TaskMatches(Play(Blocks(front)), Play(front));
      }
    }
  }

  lemma BlocksSnoc(front: seq<Item>, last: Item)
    ensures (Blocks(front) + [last])[..|Blocks(front)|] == Blocks(front)
    ensures (Blocks(front) + [last])[|Blocks(front)|] == last
  {
  }

  lemma BlockTurn(front: seq<Item>, last: Item)
    requires Playable(front) && Playable(Blocks(front)) && Blocks(Blocks(front)) == Blocks(front) && last.Block?
    requires Matches(Play(Blocks(front)), Play(front))
    requires Scoped(last.s, |last.names.proms|, false) && EnvOk(last.names, Made(front))
    requires Made(Blocks(front)) == Made(front)
    ensures var free, p := Play(Blocks(front)), Play(front);
            && Enabled(EventOf(last, free.h), free.st) && Enabled(EventOf(last, p.h), p.st)
            && Matches(Turn(last, free), Turn(last, p))
  {
    var free, p := Play(Blocks(front)), Play(front);
    FreeHandles(Blocks(front));
    TurnInv(last, free);
    TurnInv(last, p);
    BlockMatches(free, p, last.s, last.names);
  }

  lemma FrontTidy(items: seq<Item>)
    requires Playable(items) && items != [] && AllTidy(Play(items).st.cells)
    ensures AllTidy(Play(items[..|items| - 1]).st.cells)
  {
    PlayEvolves(items);
    EarlierTidy(Play(items[..|items| - 1]).st, Play(items).st);
  }

  lemma EarlierTidy(a: State, b: State)
    requires Evolves(a, b) && AllTidy(b.cells)
    ensures AllTidy(a.cells)
  {
    forall c | 0 <= c < |a.cells| ensures Tidy(a.cells[c]) { assert Tidy(b.cells[c]); }
  }

  lemma PlayEvolves(items: seq<Item>)
    requires Playable(items) && items != []
    ensures Evolves(Play(items[..|items| - 1]).st, Play(items).st)
  {
    TurnInv(items[|items| - 1], Play(items[..|items| - 1]));
  }

  lemma MatchesSolution(free: Played, p: Played, i: nat)
    requires Matches(free, p) && AllTidy(free.st.cells) && Drained(p.st) && i < |free.st.cells|
    ensures p.h[i] < |p.st.cells| && p.st.cells[p.h[i]].fate == Solve(free.st.cells)[i]
  {
    MatchesTidy(free, p);
    TidyIsLawful(p.st.cells);
    DrainedIsLeastFixedPoint(p.st);
    LeastIsUnique(p.st.cells, FateOf(p.st), p.h[i]);
    SolveRenamed(free.st.cells, p.st.cells, p.h, i);
  }

  lemma EndsDrained(items: seq<Item>)
    requires Playable(items)
    ensures Playable(items + [Task]) && Blocks(items + [Task]) == Blocks(items) && Made(items + [Task]) == Made(items)
    ensures Drained(Play(items + [Task]).st)
  {
    assert (items + [Task])[..|items|] == items;
    DrainInv(Play(items).st);
    PlaySolving(items + [Task]);
  }

  /** The fate of the promise that the blocks made as number `i`, after a last run of `promise_task`. */
  ghost function FateAfter(items: seq<Item>, i: nat): Fate
    requires Playable(items) && i < Made(items)
  {
    EndsDrained(items);
    var p := Play(items + [Task]);
    p.st.cells[p.h[i]].fate
  }

  /** Wherever `promise_task` is run between the blocks of a program of tidy promises: after a last run,
      the fate of each promise that the blocks made is the solution of the equations that the blocks alone
      set up. */
  lemma ScheduleIrrelevant(items: seq<Item>, i: nat)
    requires Playable(items) && i < Made(items)
    requires Playable(Blocks(items)) ==> AllTidy(Play(Blocks(items)).st.cells)
    ensures Playable(Blocks(items)) && i < |Play(Blocks(items)).st.cells|
    ensures FateAfter(items, i) == Solve(Play(Blocks(items)).st.cells)[i]
  {
    BlocksPlayable(items);
    EndsDrained(items);
    PlayMatches(items + [Task]);
    MatchesSolution(Play(Blocks(items)), Play(items + [Task]), i);
  }

  /** Two schedules of one program give each of its promises the same fate. */
  lemma InterleavingIrrelevant(xs: seq<Item>, ys: seq<Item>, i: nat)
    requires Playable(xs) && Playable(ys) && Blocks(xs) == Blocks(ys) && i < Made(xs)
    requires Playable(Blocks(xs)) ==> AllTidy(Play(Blocks(xs)).st.cells)
    ensures i < Made(ys) && FateAfter(xs, i) == FateAfter(ys, i)
  {
    BlocksPlayable(xs);
    BlocksPlayable(ys);
    ScheduleIrrelevant(xs, i);
    ScheduleIrrelevant(ys, i);
  }

  /** And so do two programs whose blocks alone set up the same equations, in whatever order they do it. */
  lemma ReorderIrrelevant(xs: seq<Item>, ys: seq<Item>, h: seq<nat>, i: nat)
    requires Playable(xs) && Playable(ys) && Playable(Blocks(xs)) && Playable(Blocks(ys)) && i < Made(xs)
    requires Renamed(Play(Blocks(xs)).st.cells, Play(Blocks(ys)).st.cells, h)
    requires AllTidy(Play(Blocks(xs)).st.cells) && AllTidy(Play(Blocks(ys)).st.cells)
    ensures i < |h| && h[i] < Made(ys) && FateAfter(xs, i) == FateAfter(ys, h[i])
  {
    ScheduleIrrelevant(xs, i);
    BlocksPlayable(ys);
    FreeHandles(Blocks(ys));
    ScheduleIrrelevant(ys, h[i]);
    SolveRenamed(Play(Blocks(xs)).st.cells, Play(Blocks(ys)).st.cells, h, i);
  }

  /** The promise whose context an operation calls, if any. */
  predicate CallsOn(op: Op, env: Env, p: nat) {
    (op.SettleWith? || op.Follow?) && op.r < |env.proms| && env.proms[op.r] == p
  }

  /** A call of `resolve` or `reject` may come before or after any other operation - a registration, a call on
      another promise, a new promise - without a difference to the equations. */
  lemma CallsCommute(st: State, op: Op, env: Env, call: Op, names: Env)
    requires call.SettleWith? || call.Follow?
    requires ScopedOp(op, |env.proms|) && EnvOk(env, |st.cells|)
    requires ScopedOp(call, |names.proms|) && EnvOk(names, |st.cells|)
    requires !CallsOn(op, env, names.proms[call.r])
    ensures SameOutline(LibraryCall(call, names, LibraryCall(op, env, st).1).1,
                        LibraryCall(op, env, LibraryCall(call, names, st).1).1)
  {
    var a, b := LibraryCall(op, env, st).1, LibraryCall(call, names, st).1;
    EffectOutline(op, env, st);
    EffectOutline(call, names, st);
    EffectOutline(call, names, a);
    EffectOutline(op, env, b);
    EffectCongruent(call, names, Effect(op, env, st), a);
    EffectCongruent(op, env, Effect(call, names, st), b);
    EffectsCommute(st, op, env, call, names);
  }

  /** The origin of the promise that an operation makes. */
  function Origin(op: Op, env: Env): Def
    requires Binds(op) == 1 && ScopedOp(op, |env.proms|)
  {
    match op
    case New => Root
    case NewSettled(_, f) => Given(f(env.data))
    case Chain(side, r, isVoid, body) => Chained(side, env.proms[r], Closure(isVoid, env, body))
  }

  /** What an operation does to origins and calls, and nothing else. */
  function Effect(op: Op, env: Env, st: State): (st': State)
    requires ScopedOp(op, |env.proms|) && EnvOk(env, |st.cells|)
    ensures |st.cells| <= |st'.cells|
  {
    if Binds(op) == 1 then Alloc(st, Origin(op, env), Pending)
    else if op.SettleWith? || op.Follow? then Noted(st, env.proms[op.r], CallOf(op, env))
    else st
  }

  lemma EffectOutline(op: Op, env: Env, st: State)
    requires ScopedOp(op, |env.proms|) && EnvOk(env, |st.cells|)
    ensures SameOutline(Effect(op, env, st), LibraryCall(op, env, st).1)
  {
  }

  lemma EffectCongruent(op: Op, env: Env, a: State, b: State)
    requires SameOutline(a, b) && ScopedOp(op, |env.proms|) && EnvOk(env, |a.cells|)
    ensures SameOutline(Effect(op, env, a), Effect(op, env, b))
  {
  }

  /** A call recorded on `p`, if it has a context. */
  function Noted(st: State, p: nat, x: CtxCall): State
    requires p < |st.cells|
  {
    if HasContext(st, p) then Record(st, p, x) else st
  }

  lemma NotedApart(st: State, p: nat, x: CtxCall, q: nat, y: CtxCall)
    requires p < |st.cells| && q < |st.cells| && p != q
    ensures SameOutline(Noted(Noted(st, p, x), q, y), Noted(Noted(st, q, y), p, x))
  {
  }

  lemma NotedAlloc(st: State, p: nat, x: CtxCall, d: Def)
    requires p < |st.cells|
    ensures SameOutline(Noted(Alloc(st, d, Pending), p, x), Alloc(Noted(st, p, x), d, Pending))
  {
  }

  /** The call that an operation makes. */
  function CallOf(op: Op, env: Env): CtxCall
    requires (op.SettleWith? || op.Follow?) && ScopedOp(op, |env.proms|)
  {
    if op.SettleWith? then Direct(op.fate(env.data)) else Following(env.proms[op.q])
  }

  lemma EffectsCommute(st: State, op: Op, env: Env, call: Op, names: Env)
    requires call.SettleWith? || call.Follow?
    requires ScopedOp(op, |env.proms|) && EnvOk(env, |st.cells|)
    requires ScopedOp(call, |names.proms|) && EnvOk(names, |st.cells|)
    requires !CallsOn(op, env, names.proms[call.r])
    ensures SameOutline(Effect(call, names, Effect(op, env, st)), Effect(op, env, Effect(call, names, st)))
  {
    if Binds(op) == 1 {
      NotedAlloc(st, names.proms[call.r], CallOf(call, names), Origin(op, env));
    } else if op.SettleWith? || op.Follow? {
      NotedApart(st, env.proms[op.r], CallOf(op, env), names.proms[call.r], CallOf(call, names));
    }
  }
}
