/** Two neighbouring blocks of a program may change places: a program in which they have gives every promise
    the fate that it has in the other, wherever `promise_task` is run in either. */
module Exchanges {
  import opened Scripts
  import opened Promises
  import opened Invariant
  import opened Equations
  import opened Solutions
  import opened Guarantees
  import opened Draining
  import opened Schedules

  // -------------------------------------------------------------------------------------------
  // Code makes calls on what it can name, and on nothing else
  // -------------------------------------------------------------------------------------------

  lemma LibraryKeeps(op: Op, env: Env, st: State, c: nat)
    requires ScopedOp(op, |env.proms|) && EnvOk(env, |st.cells|) && c < |st.cells| && c !in env.proms
    ensures LibraryCall(op, env, st).1.cells[c].calls == st.cells[c].calls && c !in LibraryCall(op, env, st).0.proms
  {
  }

  lemma {:induction false} ExecKeeps(s: Script, env: Env, cur: int, st: State, c: nat)
    requires EnvOk(env, |st.cells|) && cur < |st.gens| && Scoped(s, |env.proms|, 0 <= cur)
    requires c < |st.cells| && c !in env.proms
    ensures Exec(s, env, cur, st).0.cells[c].calls == st.cells[c].calls
    decreases s, 0
  {
    match s
    case If(t, a, b) => ExecKeeps(if t(env.data) then a else b, env, cur, st, c);
    case Do(op, k) =>
      var r := LibraryCall(op, env, st);
      LibraryKeeps(op, env, st, c);
      ExecKeeps(k, r.0, cur, r.1, c);
    case Call(body, k) =>
      CallKeeps(st, env, body, c);
      ExecKeeps(k, env.WithPromise(|st.cells|), cur, CallAsync(st, env, body), c);
    case Await(r, kv, ke) =>
      RegisterLists(st, OnValue, env.proms[r], Resume(cur));
      RegisterLists(Register(st, OnValue, env.proms[r], Resume(cur)), OnError, env.proms[r], Resume(cur));
    case Return(_) =>
    case ReturnPromise(_) =>
    case Throw(_) =>
  }

  lemma {:induction false} CallKeeps(st: State, env: Env, body: Script, c: nat)
    requires EnvOk(env, |st.cells|) && Scoped(body, |env.proms|, true) && c < |st.cells| && c !in env.proms
    ensures CallAsync(st, env, body).cells[c].calls == st.cells[c].calls
    decreases body, 1
  {
    var st1 := StartAsync(st, env, body);
    ExecKeeps(body, env, |st.gens|, st1, c);
    var r := Exec(body, env, |st.gens|, st1);
    FinishOutline(r.0, |st.gens|, |st.cells|, r.1);
  }

  // -------------------------------------------------------------------------------------------
  // Two scripts
  // -------------------------------------------------------------------------------------------

  /** `n` promises stay where they are, and the next `p` change places with the `q` behind them. */
  function Swapped(n: nat, p: nat, q: nat): (h: seq<nat>)
    ensures |h| == n + p + q
  {
    seq(n + p + q, i requires 0 <= i => if i < n then i else if i < n + p then i + q else i - p)
  }

  /** `n` promises stay where they are, and the next `p` leave room for `q`. */
  function Behind(n: nat, p: nat, q: nat): (h: seq<nat>)
    ensures |h| == n + p
  {
    seq(n + p, i requires 0 <= i => if i < n then i else i + q)
  }

  lemma BehindRange(n: nat, m: nat, k: nat)
    requires n <= m <= k
    ensures Range(0, n) + Range(m, k) == Behind(n, k - m, m - n)
  {
  }

  lemma SwappedTwice(n: nat, p: nat, q: nat, i: nat)
    requires i < n + p + q
    ensures Swapped(n, p, q)[i] < n + p + q && Swapped(n, q, p)[Swapped(n, p, q)[i]] == i
  {
  }

  function CallCounts(cells: seq<Cell>, n: nat): (ms: seq<nat>)
    requires n <= |cells|
    ensures |ms| == n
  {
    seq(n, i requires 0 <= i < n => |cells[i].calls|)
  }

  /** `first` is what a script makes of the promises `start`; `second` what it makes of `other`, which another
      script has left of them. */
  ghost predicate FirstAlike(start: seq<Cell>, first: seq<Cell>, other: seq<Cell>, second: seq<Cell>) {
    && Extends(start, first) && Extends(start, other) && Extends(other, second)
    && Alike(first, second, Range(0, |start|) + Range(|other|, |second|),
             Old(CallCounts(start, |start|), CallCounts(other, |start|)))
    && (forall i :: |start| <= i < |other| ==> second[i].calls == other[i].calls)
  }

  lemma StartAlike(st: seq<Cell>, b: seq<Cell>)
    requires Renamed(st, st, Range(0, |st|)) && Extends(st, b)
    ensures Alike(st, b, Range(0, |st|), Old(CallCounts(st, |st|), CallCounts(b, |st|)))
  {
    var n, h := |st|, Range(0, |st|);
    var o := Old(CallCounts(st, n), CallCounts(b, n));
    forall i | 0 <= i < n ensures h[i] < |b| && CellAlike(st[i], b[h[i]], h, Since(o.a, i), Since(o.b, i)) {
      assert h[i] == i && CellRenamed(st[i], st[h[i]], h);
    }
  }

  lemma ExecExtends(s: Script, x: Env, st: State)
    requires Ready(st) && EnvOk(x, |st.cells|) && Scoped(s, |x.proms|, false)
    ensures Extends(st.cells, Exec(s, x, -1, st).0.cells)
  {
    ExecInv(s, x, -1, st);
  }

  /** A script that starts from promises which are well-formed, and what it makes behind another state. */
  lemma RunBehind(s: Script, x: Env, st: State, other: State)
    requires Ready(st) && Ready(other) && Renamed(st.cells, st.cells, Range(0, |st.cells|))
    requires Extends(st.cells, other.cells) && EnvOk(x, |st.cells|) && Scoped(s, |x.proms|, false)
    ensures FirstAlike(st.cells, Exec(s, x, -1, st).0.cells, other.cells, Exec(s, x, -1, other).0.cells)
  {
    var n := |st.cells|;
    StartAlike(st.cells, other.cells);
    ExecExtends(s, x, st);
    ExecExtends(s, x, other);
    ExecRenamed(s, x, x, -1, -1, st, other, Range(0, n), Old(CallCounts(st.cells, n), CallCounts(other.cells, n)));
    forall i | n <= i < |other.cells| ensures Exec(s, x, -1, other).0.cells[i].calls == other.cells[i].calls {
      ExecKeeps(s, x, -1, other, i);
    }
  }

  /** Two scripts in either order: `a` and `b` are the promises after the one and the other, `ab` and `ba` those
      after both. */
  datatype Race = Race(start: seq<Cell>, a: seq<Cell>, ab: seq<Cell>, b: seq<Cell>, ba: seq<Cell>) {
    ghost predicate Run(p: nat, q: nat) {
      && |a| == |start| + p && |b| == |start| + q && |ab| == |ba| == |start| + p + q
      && Renamed(start, start, Range(0, |start|))
      && FirstAlike(start, a, b, ba) && FirstAlike(start, b, a, ab)
    }
  }

  lemma CallLonger(x: CtxCall, y: CtxCall, h: seq<nat>, g: seq<nat>)
    requires CallRenamed(x, y, h) && h <= g
    ensures CallRenamed(x, y, g)
  {
  }

  /** A renaming undone by another. */
  ghost predicate Inverse(h: seq<nat>, g: seq<nat>) {
    forall i :: 0 <= i < |h| ==> h[i] < |g| && g[h[i]] == i
  }

  lemma CallBack(x: CtxCall, y: CtxCall, h: seq<nat>, g: seq<nat>)
    requires CallRenamed(x, y, h) && Inverse(h, g)
    ensures CallRenamed(y, x, g)
  {
  }

  lemma EnvBack(x: Env, y: Env, h: seq<nat>, g: seq<nat>)
    requires EnvRenamed(x, y, h) && Inverse(h, g)
    ensures EnvRenamed(y, x, g)
  {
    forall i | 0 <= i < |y.proms| ensures y.proms[i] < |g| && x.proms[i] == g[y.proms[i]] {
      assert y.proms[i] == h[x.proms[i]];
    }
  }

  lemma DefBack(x: Def, y: Def, h: seq<nat>, g: seq<nat>)
    requires DefRenamed(x, y, h) && Inverse(h, g)
    ensures DefRenamed(y, x, g)
  {
    match x
    case Chained(_, p, c) => if c.Closure? { EnvBack(c.env, y.handler.env, h, g); }
    case AsyncOf(env, _) => EnvBack(env, y.env, h, g);
    case _ =>
  }

  lemma FirstHandles(n: nat, p: nat, q: nat)
    ensures Range(0, n) <= Swapped(n, p, q) && Behind(n, p, q) <= Swapped(n, p, q)
    ensures Inverse(Behind(n, q, p), Swapped(n, p, q))
  {
  }

  /** Each promise of the first script by itself, and its place behind the second. */
  lemma FirstAlikeAt(start: seq<Cell>, first: seq<Cell>, other: seq<Cell>, second: seq<Cell>, h: seq<nat>, i: nat)
    requires FirstAlike(start, first, other, second) && i < |first|
    requires h == Behind(|start|, |first| - |start|, |other| - |start|)
    ensures var n := |start|;
            var j := if i < n then i else i - n + |other|;
            && |h| == |first| && j < |second|
            && CellAlike(first[i], second[j], h, if i < n then |start[i].calls| else 0,
                         if i < n then |other[i].calls| else 0)
  {
    assert |second| - |other| == |first| - |start|;
    BehindRange(|start|, |other|, |second|);
    assert h[i] == if i < |start| then i else i - |start| + |other|;
  }

  /** The first call that the first script makes on an old root. */
  lemma FirstCallAt(start: seq<Cell>, first: seq<Cell>, other: seq<Cell>, second: seq<Cell>, h: seq<nat>, i: nat)
    requires FirstAlike(start, first, other, second) && i < |start| && start[i].def.Root?
    requires h == Behind(|start|, |first| - |start|, |other| - |start|)
    ensures i < |first| && i < |other| && i < |second|
    ensures start[i].calls <= first[i].calls && other[i].calls <= second[i].calls
    ensures |first[i].calls| - |start[i].calls| == |second[i].calls| - |other[i].calls|
    ensures |first[i].calls| > |start[i].calls| ==>
              CallRenamed(first[i].calls[|start[i].calls|], second[i].calls[|other[i].calls|], h)
  {
    FirstAlikeAt(start, first, other, second, h, i);
    if |first[i].calls| > |start[i].calls| {
      assert NewCallAlike(first[i].calls, second[i].calls, h, |start[i].calls|, |other[i].calls|, 0);
    }
  }

  lemma OldRoot(r: Race, p: nat, q: nat, i: nat)
    requires r.Run(p, q) && i < |r.start| && r.start[i].def.Root? && |r.ab[i].calls| <= 1
    ensures |r.ab[i].calls| == |r.ba[i].calls|
    ensures |r.ab[i].calls| == 1 ==> CallRenamed(r.ab[i].calls[0], r.ba[i].calls[0], Swapped(|r.start|, p, q))
  {
    var n := |r.start|;
    var h1, h2 := Behind(n, p, q), Behind(n, q, p);
    FirstCallAt(r.start, r.a, r.b, r.ba, h1, i);
    FirstCallAt(r.start, r.b, r.a, r.ab, h2, i);
    FirstHandles(n, p, q);
    if |r.ab[i].calls| == 1 {
      if |r.start[i].calls| == 1 { StartCall(r.start, i, Swapped(n, p, q)); }
      else if |r.a[i].calls| == 1 { CallLonger(r.a[i].calls[0], r.ba[i].calls[0], h1, Swapped(n, p, q)); }
      else { CallBack(r.b[i].calls[0], r.ab[i].calls[0], h2, Swapped(n, p, q)); }
    }
  }

  lemma StartCall(start: seq<Cell>, i: nat, h: seq<nat>)
    requires Renamed(start, start, Range(0, |start|)) && i < |start| && start[i].def.Root? && start[i].calls != []
    requires Range(0, |start|) <= h
    ensures CallRenamed(start[i].calls[0], start[i].calls[0], h)
  {
    assert Range(0, |start|)[i] == i && CellRenamed(start[i], start[i], Range(0, |start|));
    CallLonger(start[i].calls[0], start[i].calls[0], Range(0, |start|), h);
  }

  /** A promise that was there: at most one of the two scripts makes a call on it. */
  lemma OldCell(r: Race, p: nat, q: nat, i: nat)
    requires r.Run(p, q) && i < |r.start| && (r.ab[i].def.Root? ==> |r.ab[i].calls| <= 1)
    ensures CellRenamed(r.ab[i], r.ba[i], Swapped(|r.start|, p, q))
  {
    FirstHandles(|r.start|, p, q);
    StartDef(r.start, i, Swapped(|r.start|, p, q));
    if r.start[i].def.Root? { OldRoot(r, p, q, i); }
  }

  lemma StartDef(start: seq<Cell>, i: nat, h: seq<nat>)
    requires Renamed(start, start, Range(0, |start|)) && i < |start| && Range(0, |start|) <= h
    ensures DefRenamed(start[i].def, start[i].def, h)
  {
    assert Range(0, |start|)[i] == i && CellRenamed(start[i], start[i], Range(0, |start|));
    DefLonger(start[i].def, start[i].def, Range(0, |start|), h);
  }

  /** A promise of the script that runs first in the one order. */
  lemma FirstCell(r: Race, p: nat, q: nat, i: nat)
    requires r.Run(p, q) && |r.start| <= i < |r.start| + p
    ensures CellRenamed(r.ab[i], r.ba[i + q], Swapped(|r.start|, p, q))
  {
    var n := |r.start|;
    var h1, h := Behind(n, p, q), Swapped(n, p, q);
    FirstHandles(n, p, q);
    FirstAlikeAt(r.start, r.a, r.b, r.ba, h1, i);
    CellLonger(r.a[i], r.ba[i + q], h1, h, 0, 0);
    AlikeCell(r.a[i], r.ba[i + q], h);
  }

  /** And a promise of the other script. */
  lemma SecondCell(r: Race, p: nat, q: nat, i: nat)
    requires r.Run(p, q) && |r.start| <= i < |r.start| + q
    ensures CellRenamed(r.ab[i + p], r.ba[i], Swapped(|r.start|, p, q))
  {
    var n := |r.start|;
    var h2, h := Behind(n, q, p), Swapped(n, p, q);
    FirstHandles(n, p, q);
    FirstAlikeAt(r.start, r.b, r.a, r.ab, h2, i);
    CellBack(r.b[i], r.ab[i + p], h2, h);
  }

  lemma CellBack(x: Cell, y: Cell, h: seq<nat>, g: seq<nat>)
    requires CellAlike(x, y, h, 0, 0) && Inverse(h, g)
    ensures CellRenamed(y, x, g)
  {
    DefBack(x.def, y.def, h, g);
    if x.def.Root? {
      forall k | 0 <= k < |y.calls| ensures CallRenamed(y.calls[k], x.calls[k], g) {
        assert NewCallAlike(x.calls, y.calls, h, 0, 0, k);
        CallBack(x.calls[k], y.calls[k], h, g);
      }
    }
  }

  lemma AnyCell(r: Race, p: nat, q: nat, i: nat)
    requires r.Run(p, q) && i < |r.start| + p + q && (r.ab[i].def.Root? ==> |r.ab[i].calls| <= 1)
    ensures var h := Swapped(|r.start|, p, q);
            h[i] < |r.start| + p + q && CellRenamed(r.ab[i], r.ba[h[i]], h)
  {
    var n, h := |r.start|, Swapped(|r.start|, p, q);
    assert h[i] == if i < n then i else if i < n + p then i + q else i - p;
    if i < n { OldCell(r, p, q, i); }
    else if i < n + p { FirstCell(r, p, q, i); }
    else { SecondCell(r, p, q, i - p); }
  }

  lemma SwappedOnto(n: nat, p: nat, q: nat)
    ensures var h := Swapped(n, p, q);
            (forall i :: 0 <= i < |h| ==> h[i] < |h|) && forall i, j :: 0 <= i < j < |h| ==> h[i] != h[j]
  {
    forall i | 0 <= i < n + p + q
      ensures Swapped(n, p, q)[i] < n + p + q && Swapped(n, q, p)[Swapped(n, p, q)[i]] == i
    {
      SwappedTwice(n, p, q, i);
    }
  }

  /** Two scripts that do not name each other's promises make the same promises and the same calls in either
      order, if no root gets two calls. */
  lemma ScriptsExchange(r: Race, p: nat, q: nat)
    requires r.Run(p, q)
    requires forall i :: 0 <= i < |r.ab| && r.ab[i].def.Root? ==> |r.ab[i].calls| <= 1
    ensures Renamed(r.ab, r.ba, Swapped(|r.start|, p, q))
  {
    var h := Swapped(|r.start|, p, q);
    forall i | 0 <= i < |r.ab| ensures h[i] < |r.ba| && CellRenamed(r.ab[i], r.ba[h[i]], h) { AnyCell(r, p, q, i); }
    SwappedOnto(|r.start|, p, q);
  }

  // -------------------------------------------------------------------------------------------
  // Two blocks of a program
  // -------------------------------------------------------------------------------------------

  /** A program without drains. */
  ghost predicate Free(items: seq<Item>) {
    Playable(items) && Blocks(items) == items
  }

  /** A block whose names are those of promises that `n` earlier ones include. */
  predicate Fits(item: Item, n: nat) {
    item.Block? && Scoped(item.s, |item.names.proms|, false) && EnvOk(item.names, n)
  }

  function MadeBy(item: Item): nat
    requires item.Block?
  {
    Makes(item.s, item.names.data)
  }

  /** One more block, without any drain: its names are the handles. */
  lemma FreeSnoc(pre: seq<Item>, item: Item)
    requires Free(pre) && Fits(item, Made(pre))
    ensures Free(pre + [item])
    ensures Made(pre + [item]) == Made(pre) + MadeBy(item)
    ensures var st := Play(pre).st;
            && Ready(st) && |st.cells| == Made(pre)
            && Play(pre + [item]).st == Exec(item.s, item.names, -1, st).0
  {
    var p := Play(pre);
    assert (pre + [item])[..|pre|] == pre;
    FreeHandles(pre);
    assert Bind(item.names, p.h) == item.names;
  }

  /** The same from the other end. */
  lemma FreeFront(items: seq<Item>)
    requires Free(items) && items != []
    ensures var front := items[..|items| - 1];
            Free(front) && Fits(items[|items| - 1], Made(front))
  {
    BlocksFront(items);
  }

  lemma FreeLength(items: seq<Item>)
    requires Free(items)
    ensures |Play(items).st.cells| == Made(items)
  {
    FreeHandles(items);
  }

  /** The promises of a program are well-formed: they refer to each other only. */
  lemma WellFormed(pre: seq<Item>)
    requires Free(pre) && AllTidy(Play(pre).st.cells)
    ensures Renamed(Play(pre).st.cells, Play(pre).st.cells, Range(0, |Play(pre).st.cells|))
  {
    PlayMatches(pre);
    FreeHandles(pre);
  }

  /** Two blocks at the end of a program. */
  lemma TwoBlocks(pre: seq<Item>, a: Item, b: Item)
    requires Free(pre) && Fits(a, Made(pre)) && Fits(b, Made(pre))
    ensures Free(pre + [a]) && Free(pre + [a] + [b])
    ensures var st, st1 := Play(pre).st, Play(pre + [a]).st;
            && Ready(st) && |st.cells| == Made(pre) && Ready(st1) && |st1.cells| == Made(pre) + MadeBy(a)
            && st1 == Exec(a.s, a.names, -1, st).0
            && Play(pre + [a] + [b]).st == Exec(b.s, b.names, -1, st1).0
            && |Play(pre + [a] + [b]).st.cells| == Made(pre) + MadeBy(a) + MadeBy(b)
            && Made(pre + [a] + [b]) == Made(pre) + MadeBy(a) + MadeBy(b)
  {
    FreeSnoc(pre, a);
    FreeSnoc(pre + [a], b);
    FreeLength(pre + [a] + [b]);
  }

  lemma TwoTidy(pre: seq<Item>, a: Item, b: Item)
    requires Free(pre) && Fits(a, Made(pre)) && Fits(b, Made(pre))
    requires Playable(pre + [a] + [b]) && AllTidy(Play(pre + [a] + [b]).st.cells)
    ensures AllTidy(Play(pre).st.cells)
  {
    TwoBlocks(pre, a, b);
    assert (pre + [a] + [b])[..|pre| + 1] == pre + [a] && (pre + [a])[..|pre|] == pre;
    FrontTidy(pre + [a] + [b]);
    FrontTidy(pre + [a]);
  }

  /** The second block behind the first is the one behind it by itself. */
  lemma BlockBehind(pre: seq<Item>, a: Item, b: Item)
    requires Free(pre) && Fits(a, Made(pre)) && Fits(b, Made(pre))
    requires Renamed(Play(pre).st.cells, Play(pre).st.cells, Range(0, |Play(pre).st.cells|))
    ensures Free(pre + [a]) && Free(pre + [b]) && Free(pre + [a] + [b])
    ensures FirstAlike(Play(pre).st.cells, Play(pre + [b]).st.cells, Play(pre + [a]).st.cells,
                       Play(pre + [a] + [b]).st.cells)
  {
    TwoBlocks(pre, a, b);
    FreeSnoc(pre, b);
    ExecExtends(a.s, a.names, Play(pre).st);
    RunBehind(b.s, b.names, Play(pre).st, Play(pre + [a]).st);
  }

  ghost function RaceOf(pre: seq<Item>, a: Item, b: Item): Race
    requires Free(pre + [a]) && Free(pre + [b]) && Free(pre + [a] + [b]) && Free(pre + [b] + [a]) && Free(pre)
  {
    Race(Play(pre).st.cells, Play(pre + [a]).st.cells, Play(pre + [a] + [b]).st.cells, Play(pre + [b]).st.cells,
         Play(pre + [b] + [a]).st.cells)
  }

  lemma BlocksRace(pre: seq<Item>, a: Item, b: Item)
    requires Free(pre) && Fits(a, Made(pre)) && Fits(b, Made(pre))
    requires Renamed(Play(pre).st.cells, Play(pre).st.cells, Range(0, |Play(pre).st.cells|))
    ensures Free(pre + [a]) && Free(pre + [b]) && Free(pre + [a] + [b]) && Free(pre + [b] + [a])
    ensures RaceOf(pre, a, b).Run(MadeBy(a), MadeBy(b)) && |Play(pre).st.cells| == Made(pre)
  {
    BlockBehind(pre, a, b);
    BlockBehind(pre, b, a);
    TwoBlocks(pre, a, b);
    TwoBlocks(pre, b, a);
  }

  lemma LastExchange(pre: seq<Item>, a: Item, b: Item)
    requires Free(pre) && Fits(a, Made(pre)) && Fits(b, Made(pre))
    requires Playable(pre + [a] + [b]) && AllTidy(Play(pre + [a] + [b]).st.cells)
    ensures Playable(pre + [b] + [a])
    ensures Renamed(Play(pre + [a] + [b]).st.cells, Play(pre + [b] + [a]).st.cells,
                    Swapped(Made(pre), MadeBy(a), MadeBy(b)))
  {
    TwoTidy(pre, a, b);
    WellFormed(pre);
    BlocksRace(pre, a, b);
    ScriptsExchange(RaceOf(pre, a, b), MadeBy(a), MadeBy(b));
  }

  /** Promise `k` under the renaming `h` of the first promises. */
  function Under(h: seq<nat>, k: nat): nat {
    if k < |h| then h[k] else k
  }

  function EnvUnder(names: Env, h: seq<nat>): Env {
    names.(proms := seq(|names.proms|, i requires 0 <= i < |names.proms| => Under(h, names.proms[i])))
  }

  /** The same blocks, which name the first promises by their new places. */
  function Renumbered(post: seq<Item>, h: seq<nat>): (r: seq<Item>)
    requires forall i :: 0 <= i < |post| ==> post[i].Block?
    ensures |r| == |post|
  {
    seq(|post|, i requires 0 <= i < |post| => Block(post[i].s, EnvUnder(post[i].names, h)))
  }

  function Onto(h: seq<nat>, n: nat): seq<nat>
    requires |h| <= n
  {
    h + Range(|h|, n)
  }

  lemma OntoUnder(h: seq<nat>, n: nat, names: Env)
    requires |h| <= n && EnvOk(names, n) && forall i :: 0 <= i < |h| ==> h[i] < |h|
    ensures EnvRenamed(names, EnvUnder(names, h), Onto(h, n)) && EnvOk(EnvUnder(names, h), n)
  {
  }

  /** Two programs that make the same promises, the first of them under other numbers. */
  ghost predicate SameUnder(xs: seq<Item>, ys: seq<Item>, h: seq<nat>) {
    && Free(xs) && Free(ys) && |h| <= Made(xs) == Made(ys) && (forall i :: 0 <= i < |h| ==> h[i] < |h|)
    && Renamed(Play(xs).st.cells, Play(ys).st.cells, Onto(h, Made(xs)))
  }

  /** One more block on either side. */
  lemma SnocRenamed(xs: seq<Item>, ys: seq<Item>, item: Item, h: seq<nat>)
    requires SameUnder(xs, ys, h) && Fits(item, Made(xs))
    ensures SameUnder(xs + [item], ys + [Block(item.s, EnvUnder(item.names, h))], h)
  {
    var n, item', g := Made(xs), Block(item.s, EnvUnder(item.names, h)), Onto(h, Made(xs));
    OntoUnder(h, n, item.names);
    FreeSnoc(xs, item);
    FreeSnoc(ys, item');
    var a, b := Play(xs).st, Play(ys).st;
    AlikeIsRenamed(a.cells, b.cells, g);
    ExecRenamed(item.s, item.names, item'.names, -1, -1, a, b, g, NO_CALLS);
    FreeLength(xs + [item]);
    FreeLength(ys + [item']);
    AlikeIsRenamed(Play(xs + [item]).st.cells, Play(ys + [item']).st.cells, Onto(h, Made(xs + [item])));
    RangeSplit(h, |h|, n, Made(xs + [item]));
  }

  lemma TailSplit(xs: seq<Item>, ys: seq<Item>, post: seq<Item>, h: seq<nat>)
    requires post != [] && forall i :: 0 <= i < |post| ==> post[i].Block?
    ensures var front, last := post[..|post| - 1], post[|post| - 1];
            && xs + post == xs + front + [last] && (xs + post)[..|xs + post| - 1] == xs + front
            && (xs + post)[|xs + post| - 1] == last
            && ys + Renumbered(post, h) == ys + Renumbered(front, h) + [Block(last.s, EnvUnder(last.names, h))]
  {
  }

  lemma {:induction false} TailRenamed(xs: seq<Item>, ys: seq<Item>, post: seq<Item>, h: seq<nat>)
    requires SameUnder(xs, ys, h) && Free(xs + post) && forall i :: 0 <= i < |post| ==> post[i].Block?
    ensures SameUnder(xs + post, ys + Renumbered(post, h), h)
    decreases |post|
  {
    if post == [] {
      assert xs + post == xs && ys + Renumbered(post, h) == ys;
    } else {
      TailFront(xs, ys, post, h);
      TailRenamed(xs, ys, post[..|post| - 1], h);
      SnocRenamed(xs + post[..|post| - 1], ys + Renumbered(post[..|post| - 1], h), post[|post| - 1], h);
      TailSplit(xs, ys, post, h);
    }
  }

  lemma TailFront(xs: seq<Item>, ys: seq<Item>, post: seq<Item>, h: seq<nat>)
    requires Free(xs + post) && post != [] && forall i :: 0 <= i < |post| ==> post[i].Block?
    ensures Free(xs + post[..|post| - 1]) && Fits(post[|post| - 1], Made(xs + post[..|post| - 1]))
  {
    TailSplit(xs, ys, post, h);
    FreeFront(xs + post);
  }

  lemma TidyRenamed(a: seq<Cell>, b: seq<Cell>, h: seq<nat>, g: seq<nat>)
    requires Renamed(a, b, h) && |a| == |b| && |g| == |b| && Inverse(g, h) && AllTidy(a)
    ensures AllTidy(b)
  {
    forall c | 0 <= c < |b| ensures Tidy(b[c]) {
      assert h[g[c]] == c;
      RenamedTidy(a[g[c]], b[c], h);
    }
  }

  lemma OntoInverse(n: nat, p: nat, q: nat, m: nat)
    requires n + p + q <= m
    ensures Inverse(Onto(Swapped(n, q, p), m), Onto(Swapped(n, p, q), m))
  {
    forall i | 0 <= i < m
      ensures Onto(Swapped(n, q, p), m)[i] < m && Onto(Swapped(n, p, q), m)[Onto(Swapped(n, q, p), m)[i]] == i
    {
      if i < n + p + q { SwappedTwice(n, q, p, i); }
    }
  }

  /** Two neighbouring blocks, the second of which names no promise of the first, change places, and the blocks
      behind them name promises accordingly: without any drain, that sets up the same equations. */
  lemma NeighboursExchange(pre: seq<Item>, a: Item, b: Item, post: seq<Item>)
    requires Free(pre + [a] + [b] + post) && AllTidy(Play(pre + [a] + [b] + post).st.cells)
    requires Free(pre) && Fits(a, Made(pre)) && Fits(b, Made(pre))
    requires forall i :: 0 <= i < |post| ==> post[i].Block?
    ensures var h := Swapped(Made(pre), MadeBy(a), MadeBy(b));
            SameUnder(pre + [a] + [b] + post, pre + [b] + [a] + Renumbered(post, h), h)
  {
    TwoBlocks(pre, a, b);
    assert (pre + [a] + [b] + post)[..|pre| + 2] == pre + [a] + [b];
    TakeTidy(pre + [a] + [b] + post, |pre| + 2);
    PairExchange(pre, a, b);
    TailRenamed(pre + [a] + [b], pre + [b] + [a], post, Swapped(Made(pre), MadeBy(a), MadeBy(b)));
  }

  lemma PairExchange(pre: seq<Item>, a: Item, b: Item)
    requires Free(pre) && Fits(a, Made(pre)) && Fits(b, Made(pre))
    requires Playable(pre + [a] + [b]) && AllTidy(Play(pre + [a] + [b]).st.cells)
    ensures SameUnder(pre + [a] + [b], pre + [b] + [a], Swapped(Made(pre), MadeBy(a), MadeBy(b)))
  {
    LastExchange(pre, a, b);
    TwoBlocks(pre, a, b);
    TwoBlocks(pre, b, a);
    SwappedOnto(Made(pre), MadeBy(a), MadeBy(b));
    OntoSelf(Swapped(Made(pre), MadeBy(a), MadeBy(b)));
  }

  lemma OntoSelf(h: seq<nat>)
    ensures Onto(h, |h|) == h
  {
  }

  lemma SwappedTidy(xs: seq<Item>, ys: seq<Item>, n: nat, p: nat, q: nat)
    requires SameUnder(xs, ys, Swapped(n, p, q)) && AllTidy(Play(xs).st.cells)
    ensures AllTidy(Play(ys).st.cells)
  {
    var m := Made(xs);
    OntoInverse(n, p, q, m);
    FreeLength(xs);
    FreeLength(ys);
    TidyRenamed(Play(xs).st.cells, Play(ys).st.cells, Onto(Swapped(n, p, q), m), Onto(Swapped(n, q, p), m));
  }

  lemma {:induction false} TakeTidy(items: seq<Item>, k: nat)
    requires Playable(items) && AllTidy(Play(items).st.cells) && k <= |items|
    ensures Playable(items[..k]) && AllTidy(Play(items[..k]).st.cells)
    decreases |items|
  {
    assert items[..|items|] == items;
    if k < |items| {
      FrontTidy(items);
      TakeTidy(items[..|items| - 1], k);
      assert items[..|items| - 1][..k] == items[..k];
    }
  }

  /** The same fates, wherever the drains are. */
  lemma UnderIrrelevant(xs: seq<Item>, ys: seq<Item>, h: seq<nat>, i: nat)
    requires Playable(xs) && Playable(ys) && SameUnder(Blocks(xs), Blocks(ys), h) && i < Made(xs)
    requires AllTidy(Play(Blocks(xs)).st.cells) && AllTidy(Play(Blocks(ys)).st.cells)
    ensures Under(h, i) < Made(ys) && FateAfter(xs, i) == FateAfter(ys, Under(h, i))
  {
    BlocksPlayable(xs);
    assert Onto(h, Made(xs))[i] == Under(h, i);
    ReorderIrrelevant(xs, ys, Onto(h, Made(xs)), i);
  }

  /** `ys` is `xs` with the neighbouring blocks `a` and `b` in the other order; the blocks `post` behind them name
      promises by their new numbers. */
  ghost predicate Exchanged(xs: seq<Item>, ys: seq<Item>, pre: seq<Item>, a: Item, b: Item, post: seq<Item>)
    requires a.Block? && b.Block? && forall i :: 0 <= i < |post| ==> post[i].Block?
  {
    var h := Swapped(Made(pre), MadeBy(a), MadeBy(b));
    xs == pre + [a] + [b] + post && ys == pre + [b] + [a] + Renumbered(post, h)
  }

  /** Two programs that differ in the order of two neighbouring blocks, wherever `promise_task` is run in either:
      each promise has the same fate in both, under its new number.  In particular two registrations, two
      calls on different promises, or a registration and a call may change places. */
  lemma ExchangeIrrelevant(xs: seq<Item>, ys: seq<Item>, pre: seq<Item>, a: Item, b: Item, post: seq<Item>, i: nat)
    requires Playable(xs) && Playable(ys) && i < Made(xs)
    requires Free(pre) && Fits(a, Made(pre)) && Fits(b, Made(pre)) && forall j :: 0 <= j < |post| ==> post[j].Block?
    requires Exchanged(Blocks(xs), Blocks(ys), pre, a, b, post)
    requires Playable(Blocks(xs)) ==> AllTidy(Play(Blocks(xs)).st.cells)
    ensures var j := Under(Swapped(Made(pre), MadeBy(a), MadeBy(b)), i);
            j < Made(ys) && FateAfter(xs, i) == FateAfter(ys, j)
  {
    BlocksPlayable(xs);
    NeighboursExchange(pre, a, b, post);
    SwappedTidy(Blocks(xs), Blocks(ys), Made(pre), MadeBy(a), MadeBy(b));
    UnderIrrelevant(xs, ys, Swapped(Made(pre), MadeBy(a), MadeBy(b)), i);
  }
}
