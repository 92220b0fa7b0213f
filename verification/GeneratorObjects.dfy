/** Generators as objects that `next`, `_throw` and the bodies themselves update in place, proved to do
    what the state machine of module `Generators` does. */
module GeneratorObjects {
  import opened Scripts
  import opened Generators

  /** Generator data.  The context pointers of the source are the code that they point to: the executor
      before the first `next`, a frame afterwards. */
  class GenData {
    var status: GenStatus
    const executor: Body
    var frame: Frame
    var hasStack: bool
    var callerCtx: int
    var outVal: Value
    var inVal: Option<Value>
    var error: Option<Error>

    constructor (executor: Body, out: Value)
      ensures View() == Create(executor, out)
    {
      this.executor := executor;
      status, frame, hasStack := PENDING, AtYield(executor, executor, Data([], [])), false;
      callerCtx, outVal, inVal, error := -1, out, None, None;
    }

    function View(): Gen
      reads this
    {
      Gen(status, executor, frame, hasStack, callerCtx, outVal, inVal, error)
    }
  }

  /** The generators of a program, each under its handle. */
  class Program {
    const gens: seq<GenData>

    constructor (gens: seq<GenData>)
      requires forall i, j :: 0 <= i < j < |gens| ==> gens[i] != gens[j]
      ensures this.gens == gens && Distinct()
    {
      this.gens := gens;
    }

    ghost predicate Distinct() {
      forall i, j :: 0 <= i < j < |gens| ==> gens[i] != gens[j]
    }

    function Abs(): (st: Store)
      reads gens
      ensures |st| == |gens|
    {
      seq(|gens|, i requires 0 <= i < |gens| reads gens => gens[i].View())
    }

    /** Switch to generator `g` from `caller`. */
    method SwitchTo(g: nat, inVal: Option<Value>, caller: int, ghost stack: seq<nat>)
      requires Distinct() && g < |gens| && caller == Top(stack)
      modifies gens[g]
      ensures Abs() == Enter(old(Abs()), stack, g, inVal)
    {
      gens[g].inVal := inVal;
      gens[g].status := RUNNING;
      gens[g].hasStack := true;
      gens[g].callerCtx := caller;
    }

    /** The end of the wrapper around the executor, and the release of the stack. */
    method End(g: nat, r: Result, ghost stack: seq<nat>)
      requires Distinct() && Valid(Abs(), stack) && stack != [] && Top(stack) == g && !r.Crash?
      modifies gens[g]
      ensures Abs() == Stop(old(Abs()), stack, g, Finished(old(Abs())[g], r))
    {
      ghost var st := Abs();
      assert GenOk(st[g], |st|);
      match r {
        case Ok(v) => gens[g].outVal := v;
        case Err(e) => gens[g].error := Some(e);
      }
      gens[g].status := DONE;
      gens[g].hasStack := false;
      assert Abs() == st[g := Finished(st[g], r)];
    }

    /** The process dies in `g`. */
    method Die(g: nat, ghost stack: seq<nat>)
      requires Distinct() && Valid(Abs(), stack) && stack != [] && Top(stack) == g
      modifies gens[g]
      ensures Abs() == Stop(old(Abs()), stack, g, Crashed(old(Abs())[g]))
    {
      ghost var st := Abs();
      assert GenOk(st[g], |st|);
      gens[g].status := CRASHED;
      gens[g].hasStack := false;
      assert Abs() == st[g := Crashed(st[g])];
    }

    /** `yield_impl` on any generator: one that is not running refuses. */
    method TryYield(g: nat, v: Value, f: Frame, ghost stack: seq<nat>) returns (refused: Option<Error>)
      requires Distinct() && Valid(Abs(), stack) && g < |gens| && FrameOk(f, |gens|)
      requires gens[g].status == RUNNING ==> stack != [] && Top(stack) == g
      modifies gens[g]
      ensures if old(gens[g].status) == RUNNING
              then refused == None && Abs() == Stop(old(Abs()), stack, g, Suspended(old(Abs())[g], v, f))
              else refused == Some(NotRunning) && Abs() == old(Abs())
    {
      if gens[g].status != RUNNING { return Some(NotRunning); }
      YieldImpl(g, v, f, stack);
      refused := None;
    }

    /** `yield_impl` of a running generator, up to the switch. */
    method YieldImpl(g: nat, v: Value, f: Frame, ghost stack: seq<nat>)
      requires Distinct() && Valid(Abs(), stack) && stack != [] && Top(stack) == g && FrameOk(f, |gens|)
      modifies gens[g]
      ensures Abs() == Stop(old(Abs()), stack, g, Suspended(old(Abs())[g], v, f))
    {
      ghost var st := Abs();
      assert GenOk(st[g], |st|);
      gens[g].outVal := v;
      gens[g].status := SUSPENDED;
      gens[g].frame := f;
      assert Abs() == st[g := Suspended(st[g], v, f)];
    }

    /** `next`, called by `caller`. */
    method Next(g: nat, v: Value, caller: int, ghost stack: seq<nat>) returns (r: Result)
      requires Distinct() && Valid(Abs(), stack) && g < |gens| && caller == Top(stack)
      modifies gens
      ensures (Abs(), r) == SendIn(old(Abs()), stack, g, v)
      decreases Total(Abs()), 1
    {
      if gens[g].status == DONE { return Ok(gens[g].outVal); }
      if gens[g].status == RUNNING { return Err(AlreadyRunning); }
      if gens[g].status == CRASHED { return Crash; }
      ghost var was := gens[g].View();
      var wasPending := gens[g].status == PENDING;
      EnterOk(Abs(), stack, g, Some(v));
      assert GenOk(Abs()[g], |gens|);
      SwitchTo(g, Some(v), caller, stack);
      ResumeBody(g, wasPending, v, stack + [g], was);
      r := AnswerOf(g);
    }

    /** The generator starts its executor, or goes on in the frame it was suspended in. */
    method ResumeBody(g: nat, wasPending: bool, v: Value, ghost stack: seq<nat>, ghost was: Gen)
      requires Distinct() && Valid(Abs(), stack) && stack != [] && Top(stack) == g && gens[g].inVal == Some(v)
      requires GenOk(was, |gens|) && (if wasPending then was.status == PENDING else was.status == SUSPENDED)
      requires was.executor == gens[g].executor && was.frame == gens[g].frame
      modifies gens
      ensures Abs() == Resume(old(Abs()), stack, g, was)
      decreases Total(Abs()) + Left(was), 0
    {
      if wasPending {
        Body(g, gens[g].executor, Data([], []), stack);
      } else {
        match gens[g].frame {
          case AtYield(x, _, d) => Body(g, x, WithValue(d, v), stack);
          case InYieldFrom(t, x, y, d) => Body(g, YieldFrom(t, x, y), d, stack);
        }
      }
    }

    /** `_throw`, called by `caller`. */
    method Throw(g: nat, e: Error, caller: int, ghost stack: seq<nat>) returns (r: Result)
      requires Distinct() && Valid(Abs(), stack) && g < |gens| && caller == Top(stack)
      modifies gens
      ensures (Abs(), r) == ThrowIn(old(Abs()), stack, g, e)
      decreases Total(Abs()), 1
    {
      match gens[g].status
      case RUNNING => r := Err(AlreadyRunning);
      case CRASHED => r := Crash;
      case SUSPENDED =>
        var frame := gens[g].frame;
        EnterOk(Abs(), stack, g, None);
        assert GenOk(Abs()[g], |gens|);
        SwitchTo(g, None, caller, stack);
        assert (stack + [g])[..|stack|] == stack;
        Body(g, frame.onError, WithError(frame.data, e), stack + [g]);
        r := AnswerOf(g);
      case _ => r := Err(e);
    }

    /** What `run_generator` returns or rethrows. */
    method AnswerOf(g: nat) returns (r: Result)
      requires g < |gens|
      ensures r == Answer(Abs()[g])
    {
      if gens[g].status == CRASHED {
        r := Crash;
      } else if gens[g].status == DONE && gens[g].error.Some? {
        r := Err(gens[g].error.value);
      } else {
        r := Ok(gens[g].outVal);
      }
    }

    /** The body of the running generator `g`, from `b` on, up to its next yield or its end. */
    method Body(g: nat, b: Body, d: Data, ghost stack: seq<nat>)
      requires Distinct() && Valid(Abs(), stack) && stack != [] && Top(stack) == g
      requires Targets(b, |gens|)
      modifies gens
      ensures Abs() == Run(old(Abs()), stack, g, b, d)
      decreases Total(Abs()) + Size(b), 0
    {
      match b
      case Return(e) => End(g, Ok(e(d)), stack);
      case Raise(e) => End(g, Err(e(d)), stack);
      case If(t, x, y) => if t(d) { Body(g, x, d, stack); } else { Body(g, y, d, stack); }
      case Yield(e, x, y) => YieldImpl(g, e(d), AtYield(x, y, d), stack);
      case Next(t, e, x, y) =>
        ghost var was := Abs();
        var r := this.Next(t, e(d), g, stack);
        GoOn(g, r, x, y, d, stack, was);
      case Throw(t, e, x, y) =>
        ghost var was := Abs();
        var r := this.Throw(t, e(d), g, stack);
        GoOn(g, r, x, y, d, stack, was);
      case YieldFrom(t, x, y) => DelegateTo(g, t, x, y, d, stack);
    }

    /** One turn of the loop of `yield_from`; the loop itself goes through the frame it leaves.  The value
        to pass on is read after the inner status, through a pointer that is null after a `_throw`. */
    method DelegateTo(g: nat, t: nat, x: Body, y: Body, d: Data, ghost stack: seq<nat>)
      requires Distinct() && Valid(Abs(), stack) && stack != [] && Top(stack) == g
      requires Targets(YieldFrom(t, x, y), |gens|)
      modifies gens
      ensures Abs() == Run(old(Abs()), stack, g, YieldFrom(t, x, y), d)
      decreases Total(Abs()) + Size(YieldFrom(t, x, y)) - 1, 2
    {
      if gens[t].status == DONE {
        Body(g, x, d, stack);
      } else if gens[g].inVal.None? {
        Die(g, stack);
      } else {
        ghost var was := Abs();
        var r := this.Next(t, gens[g].inVal.value, g, stack);
        PassOn(g, r, t, x, y, d, stack, was);
      }
    }

    /** The body goes on with the answer of a generator that it has called. */
    method GoOn(g: nat, a: Result, x: Body, y: Body, d: Data, ghost stack: seq<nat>, ghost was: Store)
      requires Distinct() && Valid(Abs(), stack) && stack != [] && Top(stack) == g
      requires Untouched(was, Abs(), stack) && Total(Abs()) <= Total(was) && Targets(x, |gens|) && Targets(y, |gens|)
      modifies gens
      ensures Abs() == Continue(was, old(Abs()), stack, g, a, x, y, d)
      decreases Total(was) + Size(x) + Size(y), 0
    {
      match a
      case Ok(v) => Body(g, x, WithValue(d, v), stack);
      case Err(err) => Body(g, y, WithError(d, err), stack);
      case Crash => Die(g, stack);
    }

    /** `yield_from` goes on with the answer of the inner generator. */
    method PassOn(g: nat, a: Result, t: nat, x: Body, y: Body, d: Data, ghost stack: seq<nat>, ghost was: Store)
      requires Distinct() && Valid(Abs(), stack) && stack != [] && Top(stack) == g
      requires Untouched(was, Abs(), stack) && Total(Abs()) <= Total(was)
      requires t < |gens| && Targets(x, |gens|) && Targets(y, |gens|) && (a.Ok? ==> Total(Abs()) < Total(was))
      modifies gens
      ensures Abs() == Delegate(was, old(Abs()), stack, g, a, t, x, y, d)
      decreases Total(was) + Size(x) + Size(y), 0
    {
      match a
      case Ok(v) => YieldImpl(g, v, InYieldFrom(t, x, y, d), stack);
      case Err(err) => Body(g, y, WithError(d, err), stack);
      case Crash => Die(g, stack);
    }
  }
}
