/** Generators as a state machine on values.  A body may resume other generators from inside its own
    run, so running one is a nest of runs; `stack` lists the generators that are being run, innermost
    last, as the chain of caller contexts does in the source. */
module Generators {
  import opened Scripts

  /** CRASHED is no status of the source: the process died in this generator, by reading through the pointer
      to the value sent in while it was null. */
  datatype GenStatus = PENDING | RUNNING | SUSPENDED | DONE | CRASHED

  /** A generator body, by what it does to the library; `target` is another generator. */
  datatype Body =
    | Return(value: Data -> Value)
    | Raise(error: Data -> Error)
    | If(test: Data -> bool, yes: Body, no: Body)
      // ctx.yield(value): `onValue` continues with what is sent in, `onError` where the exception is caught
    | Yield(value: Data -> Value, onValue: Body, onError: Body)
      // gens[target].next(value) and gens[target]._throw(error)
    | Next(target: nat, value: Data -> Value, onValue: Body, onError: Body)
    | Throw(target: nat, error: Data -> Error, onValue: Body, onError: Body)
      // ctx.yield_from(gens[target])
    | YieldFrom(target: nat, k: Body, onError: Body)

  /** Where a suspended body stands. */
  datatype Frame =
    | AtYield(onValue: Body, onError: Body, data: Data)
    | InYieldFrom(target: nat, k: Body, onError: Body, data: Data)

  datatype Option<T> = None | Some(value: T)

  /** Generator data.  `inVal` is the pointer to the value sent in, null after `_throw`; `hasStack` says
      that the generator's stack is allocated; `caller` is the generator it was resumed from, or -1. */
  datatype Gen = Gen(status: GenStatus, executor: Body, frame: Frame, hasStack: bool, caller: int,
                     outVal: Value, inVal: Option<Value>, error: Option<Error>)

  /** What a call gives: a value, an exception, or nothing any more. */
  datatype Result = Ok(value: Value) | Err(error: Error) | Crash

  type Store = seq<Gen>

  /** A new generator; `out` is the default value of its type. */
  function Create(b: Body, out: Value): Gen {
    Gen(PENDING, b, AtYield(b, b, Data([], [])), false, -1, out, None, None)
  }

  function WithValue(d: Data, v: Value): Data {
    d.(vals := d.vals + [v])
  }

  function WithError(d: Data, e: Error): Data {
    d.(errs := d.errs + [e])
  }

  // -------------------------------------------------------------------------------------------
  // Work left in the bodies
  // -------------------------------------------------------------------------------------------

  function Size(b: Body): (n: nat)
    ensures n > 0
  {
    match b
    case Return(_) => 1
    case Raise(_) => 1
    case If(_, x, y) => 1 + Size(x) + Size(y)
    case Yield(_, x, y) => 1 + Size(x) + Size(y)
    case Next(_, _, x, y) => 1 + Size(x) + Size(y)
    case Throw(_, _, x, y) => 1 + Size(x) + Size(y)
    case YieldFrom(_, x, y) => 1 + Size(x) + Size(y)
  }

  function Left(g: Gen): nat {
    match g.status
    case PENDING => Size(g.executor) + 1
    case SUSPENDED =>
      (match g.frame
       case AtYield(x, y, _) => Size(x) + Size(y) + 1
       case InYieldFrom(_, x, y, _) => Size(x) + Size(y) + 2)
    case _ => 0
  }

  function Total(st: Store): nat {
    if st == [] then 0 else Left(st[0]) + Total(st[1..])
  }

  lemma {:induction false} UpdateTotal(st: Store, g: nat, x: Gen)
    requires g < |st|
    ensures Total(st[g := x]) + Left(st[g]) == Total(st) + Left(x)
  {
    if g == 0 {
      assert st[g := x][1..] == st[1..];
    } else {
      UpdateTotal(st[1..], g - 1, x);
      assert st[g := x][1..] == st[1..][g - 1 := x];
    }
  }

  // -------------------------------------------------------------------------------------------
  // Running
  // -------------------------------------------------------------------------------------------

  predicate Targets(b: Body, n: nat) {
    match b
    case Return(_) => true
    case Raise(_) => true
    case If(_, x, y) => Targets(x, n) && Targets(y, n)
    case Yield(_, x, y) => Targets(x, n) && Targets(y, n)
    case Next(t, _, x, y) => t < n && Targets(x, n) && Targets(y, n)
    case Throw(t, _, x, y) => t < n && Targets(x, n) && Targets(y, n)
    case YieldFrom(t, x, y) => t < n && Targets(x, n) && Targets(y, n)
  }

  predicate FrameOk(f: Frame, n: nat) {
    match f
    case AtYield(x, y, _) => Targets(x, n) && Targets(y, n)
    case InYieldFrom(t, x, y, _) => t < n && Targets(x, n) && Targets(y, n)
  }

  /** One generator between two switches of context. */
  predicate GenOk(g: Gen, n: nat) {
    && (g.status.PENDING? ==> Targets(g.executor, n))
    && (g.status.SUSPENDED? ==> FrameOk(g.frame, n))
    && (g.hasStack <==> g.status.SUSPENDED? || g.status.RUNNING?)
    && (g.error.Some? ==> g.status.DONE?)
  }

  /** The running generators are exactly those on the stack, each once, and each knows its caller. */
  ghost predicate Stacked(st: Store, stack: seq<nat>) {
    && (forall i :: 0 <= i < |stack| ==> stack[i] < |st| && st[stack[i]].status.RUNNING?)
    && (forall i :: 0 <= i < |stack| ==> CallerOk(st, stack, i))
    && (forall g :: 0 <= g < |st| && st[g].status.RUNNING? ==> g in stack)
    && (forall i, j :: 0 <= i < j < |stack| ==> stack[i] != stack[j])
  }

  predicate CallerOk(st: Store, stack: seq<nat>, i: nat) {
    i < |stack| && stack[i] < |st| && st[stack[i]].caller == if i == 0 then -1 else stack[i - 1]
  }

  ghost predicate Valid(st: Store, stack: seq<nat>) {
    Stacked(st, stack) && forall g :: 0 <= g < |st| ==> GenOk(st[g], |st|)
  }

  function Top(stack: seq<nat>): int {
    if stack == [] then -1 else stack[|stack| - 1]
  }

  /** Switch to generator `g`: it is put on the stack. */
  function Enter(st: Store, stack: seq<nat>, g: nat, inVal: Option<Value>): Store
    requires g < |st|
  {
    st[g := st[g].(status := RUNNING, hasStack := true, caller := Top(stack), inVal := inVal)]
  }

  /** The end of everything, in `g`. */
  function Crashed(g: Gen): Gen {
    g.(status := CRASHED, hasStack := false)
  }

  /** Switch back from `g`, which ended with or without an exception; its stack is released. */
  function Finished(g: Gen, r: Result): Gen {
    match r
    case Ok(v) => g.(status := DONE, hasStack := false, outVal := v)
    case Err(e) => g.(status := DONE, hasStack := false, error := Some(e))
    case Crash => Crashed(g)
  }

  /** Switch back from `g` at a yield of `v`. */
  function Suspended(g: Gen, v: Value, f: Frame): Gen {
    g.(status := SUSPENDED, outVal := v, frame := f)
  }

  /** What `run_generator` hands to the caller. */
  function Answer(g: Gen): Result {
    if g.status.CRASHED? then Crash
    else if g.status.DONE? && g.error.Some? then Err(g.error.value)
    else Ok(g.outVal)
  }

  lemma EnterStacked(st: Store, stack: seq<nat>, g: nat, x: Gen)
    requires Stacked(st, stack) && g < |st| && !st[g].status.RUNNING?
    requires x.status.RUNNING? && x.caller == Top(stack)
    ensures Stacked(st[g := x], stack + [g])
  {
    var st', s' := st[g := x], stack + [g];
    assert s'[|stack|] == g;
    forall i | 0 <= i < |s'| ensures CallerOk(st', s', i) {
      if i < |stack| { assert s'[i] == stack[i] && CallerOk(st, stack, i); }
    }
    forall y | 0 <= y < |st'| && st'[y].status.RUNNING? ensures y in s' {
      if y != g { assert y in stack; }
    }
  }

  lemma EnterOk(st: Store, stack: seq<nat>, g: nat, inVal: Option<Value>)
    requires Valid(st, stack) && g < |st| && (st[g].status.PENDING? || st[g].status.SUSPENDED?)
    ensures Valid(Enter(st, stack, g, inVal), stack + [g])
    ensures Total(Enter(st, stack, g, inVal)) + Left(st[g]) == Total(st)
  {
    var st' := Enter(st, stack, g, inVal);
    UpdateTotal(st, g, st'[g]);
    EnterStacked(st, stack, g, st'[g]);
    forall x | 0 <= x < |st'| ensures GenOk(st'[x], |st'|) { assert GenOk(st[x], |st|); }
  }

  lemma LeaveStacked(st: Store, stack: seq<nat>, g: nat, x: Gen)
    requires Stacked(st, stack) && stack != [] && Top(stack) == g && !x.status.RUNNING?
    ensures Stacked(st[g := x], stack[..|stack| - 1])
  {
    var st', n := st[g := x], |stack| - 1;
    var s' := stack[..n];
    forall i | 0 <= i < n ensures CallerOk(st', s', i) {
      assert s'[i] == stack[i] && stack[i] != stack[n] && CallerOk(st, stack, i);
    }
    forall y | 0 <= y < |st'| && st'[y].status.RUNNING? ensures y in s' {
      var i :| 0 <= i < |stack| && stack[i] == y;
      assert i < n && s'[i] == y;
    }
  }

  /** The innermost running generator is replaced by `x`, which is not running. */
  lemma LeaveOk(st: Store, stack: seq<nat>, g: nat, x: Gen)
    requires Valid(st, stack) && stack != [] && Top(stack) == g
    requires GenOk(x, |st|) && !x.status.RUNNING?
    ensures Valid(st[g := x], stack[..|stack| - 1])
    ensures Total(st[g := x]) == Total(st) + Left(x)
  {
    var st' := st[g := x];
    UpdateTotal(st, g, x);
    LeaveStacked(st, stack, g, x);
    forall y | 0 <= y < |st'| ensures GenOk(st'[y], |st'|) { assert GenOk(st[y], |st|); }
  }

  /** Generators on the stack are not touched by what runs above them, finished ones by nothing. */
  ghost predicate Untouched(a: Store, b: Store, stack: seq<nat>) {
    && |a| == |b|
    && (forall i :: 0 <= i < |stack| && stack[i] < |a| ==> b[stack[i]] == a[stack[i]])
    && (forall x :: 0 <= x < |a| && a[x].status.DONE? ==> b[x] == a[x])
  }

  lemma UntouchedFront(a: Store, b: Store, c: Store, stack: seq<nat>)
    requires stack != [] && Untouched(a, b, stack) && Untouched(b, c, stack[..|stack| - 1])
    ensures Untouched(a, c, stack[..|stack| - 1])
  {
    var front := stack[..|stack| - 1];
    forall i | 0 <= i < |front| && front[i] < |a| ensures c[front[i]] == a[front[i]] {
      assert front[i] == stack[i];
    }
  }

  /** The innermost running generator stops: its body ended, or it yields. */
  function Stop(st: Store, stack: seq<nat>, g: nat, x: Gen): (r: Store)
    requires Valid(st, stack) && stack != [] && Top(stack) == g
    requires GenOk(x, |st|) && !x.status.RUNNING?
    ensures Valid(r, stack[..|stack| - 1]) && Untouched(st, r, stack[..|stack| - 1])
    ensures Total(r) == Total(st) + Left(x) && r == st[g := x]
  {
    LeaveOk(st, stack, g, x);
    st[g := x]
  }

  /** `next`. */
  function SendIn(st: Store, stack: seq<nat>, g: nat, v: Value): (r: (Store, Result))
    requires Valid(st, stack) && g < |st|
    ensures Valid(r.0, stack) && Untouched(st, r.0, stack) && Total(r.0) <= Total(st)
    ensures st[g].status.PENDING? || st[g].status.SUSPENDED? ==> Total(r.0) < Total(st)
    decreases Total(st), 1
  {
    match st[g].status
    case DONE => (st, Ok(st[g].outVal))
    case RUNNING => (st, Err(AlreadyRunning))
    case CRASHED => (st, Crash)
    case _ =>
      EnterOk(st, stack, g, Some(v));
      var r := Resume(Enter(st, stack, g, Some(v)), stack + [g], g, st[g]);
      assert (stack + [g])[..|stack|] == stack;
      (r, Answer(r[g]))
  }

  /** `_throw`. */
  function ThrowIn(st: Store, stack: seq<nat>, g: nat, e: Error): (r: (Store, Result))
    requires Valid(st, stack) && g < |st|
    ensures Valid(r.0, stack) && Untouched(st, r.0, stack) && Total(r.0) <= Total(st)
    decreases Total(st), 1
  {
    match st[g].status
    case RUNNING => (st, Err(AlreadyRunning))
    case CRASHED => (st, Crash)
    case SUSPENDED =>
      EnterOk(st, stack, g, None);
      var r := Run(Enter(st, stack, g, None), stack + [g], g, st[g].frame.onError, WithError(st[g].frame.data, e));
      assert (stack + [g])[..|stack|] == stack;
      (r, Answer(r[g]))
    case _ => (st, Err(e))
  }

  /** What `g` runs when a value is sent in; `was` is the generator before the switch. */
  function Resume(st: Store, stack: seq<nat>, g: nat, was: Gen): (r: Store)
    requires Valid(st, stack) && stack != [] && Top(stack) == g && st[g].inVal.Some?
    requires (was.status.PENDING? || was.status.SUSPENDED?) && GenOk(was, |st|)
    ensures Valid(r, stack[..|stack| - 1]) && Untouched(st, r, stack[..|stack| - 1])
    ensures Total(r) < Total(st) + Left(was) && !r[g].status.RUNNING?
    decreases Total(st) + Left(was), 0
  {
    if was.status.PENDING? then Run(st, stack, g, was.executor, Data([], []))
    else match was.frame
      case AtYield(x, _, d) => Run(st, stack, g, x, WithValue(d, st[g].inVal.value))
      case InYieldFrom(t, x, y, d) => Run(st, stack, g, YieldFrom(t, x, y), d)
  }

  /** Run the rest `b` of the body of `g`, the innermost running generator, up to its next yield or its end. */
  function Run(st: Store, stack: seq<nat>, g: nat, b: Body, d: Data): (r: Store)
    requires Valid(st, stack) && stack != [] && Top(stack) == g
    requires Targets(b, |st|)
    ensures Valid(r, stack[..|stack| - 1]) && Untouched(st, r, stack[..|stack| - 1])
    ensures Total(r) <= Total(st) + Size(b) && !r[g].status.RUNNING?
    decreases Total(st) + Size(b), 0
  {
    match b
    case Return(e) => Stop(st, stack, g, Finished(st[g], Ok(e(d))))
    case Raise(e) => Stop(st, stack, g, Finished(st[g], Err(e(d))))
    case If(t, x, y) => Run(st, stack, g, if t(d) then x else y, d)
    case Yield(e, x, y) => Stop(st, stack, g, Suspended(st[g], e(d), AtYield(x, y, d)))
    case Next(t, e, x, y) =>
      var r := SendIn(st, stack, t, e(d));
      Continue(st, r.0, stack, g, r.1, x, y, d)
    case Throw(t, e, x, y) =>
      var r := ThrowIn(st, stack, t, e(d));
      Continue(st, r.0, stack, g, r.1, x, y, d)
    case YieldFrom(t, x, y) =>
      if st[t].status.DONE? then Run(st, stack, g, x, d)
      else if st[g].inVal.None? then Stop(st, stack, g, Crashed(st[g]))
      else
        var r := SendIn(st, stack, t, st[g].inVal.value);
        Delegate(st, r.0, stack, g, r.1, t, x, y, d)
  }

  /** Go on in the body of `g` with the answer of another generator; `was` is the store before it ran. */
  function Continue(was: Store, st: Store, stack: seq<nat>, g: nat, a: Result, x: Body, y: Body, d: Data): (r: Store)
    requires Valid(st, stack) && stack != [] && Top(stack) == g && Untouched(was, st, stack) && Total(st) <= Total(was)
    requires Targets(x, |st|) && Targets(y, |st|)
    ensures Valid(r, stack[..|stack| - 1]) && Untouched(was, r, stack[..|stack| - 1])
    ensures Total(r) <= Total(was) + Size(x) + Size(y) && !r[g].status.RUNNING?
    decreases Total(was) + Size(x) + Size(y), 0
  {
    var r := match a
      case Ok(v) => Run(st, stack, g, x, WithValue(d, v))
      case Err(e) => Run(st, stack, g, y, WithError(d, e))
      case Crash => Stop(st, stack, g, Crashed(st[g]));
    UntouchedFront(was, st, r, stack);
    r
  }

  /** Go on in `yield_from` with the answer of the inner generator. */
  function Delegate(was: Store, st: Store, stack: seq<nat>, g: nat, a: Result, t: nat, x: Body, y: Body, d: Data)
    : (r: Store)
    requires Valid(st, stack) && stack != [] && Top(stack) == g && Untouched(was, st, stack) && Total(st) <= Total(was)
    requires t < |st| && Targets(x, |st|) && Targets(y, |st|)
    requires a.Ok? ==> Total(st) < Total(was)
    ensures Valid(r, stack[..|stack| - 1]) && Untouched(was, r, stack[..|stack| - 1])
    ensures Total(r) <= Total(was) + Size(x) + Size(y) + 1 && !r[g].status.RUNNING?
    decreases Total(was) + Size(x) + Size(y), 0
  {
    var r := match a
      case Ok(v) => Stop(st, stack, g, Suspended(st[g], v, InYieldFrom(t, x, y, d)))
      case Err(e) => Run(st, stack, g, y, WithError(d, e))
      case Crash => Stop(st, stack, g, Crashed(st[g]));
    UntouchedFront(was, st, r, stack);
    r
  }
}
