/** User code, defunctionalised.

    A promise handler, an async function body or a task is C++ code that the library calls back.
    Here it is a finite `Script`: its data flow is given by arbitrary total functions of what it has
    received so far, and every effect it can have on the library is a constructor.  Promise handles are
    named by their position in the environment that the C++ closure would capture. */
module Scripts {

  /** The one value type of the model; `Blank` is the value of a `Promise<void>`. */
  datatype Value = Blank | Datum(n: int)

  /** What an exception pointer holds: a user's exception, or a GeneratorError with its reason. */
  datatype Error = Error(code: int) | AlreadyRunning | NotRunning

  /** Status and payload of a promise cell. */
  datatype Fate = Pending | Resolved(value: Value) | Rejected(error: Error)

  /** What settles a promise: a value or an error. */
  type Settled = f: Fate | !f.Pending? witness Resolved(Blank)

  /** The two wrapper lists of a cell: `then` feeds the first, `_catch` the second. */
  datatype Side = OnValue | OnError

  /** The list that is called back once a promise has the settled fate `f`. */
  function Way(f: Settled): Side {
    if f.Resolved? then OnValue else OnError
  }

  /** The data received so far: handler arguments, awaited values and awaited errors. */
  datatype Data = Data(vals: seq<Value>, errs: seq<Error>) {
    function WithArg(arg: Fate): Data {
      match arg
      case Pending => this
      case Resolved(v) => this.(vals := vals + [v])
      case Rejected(e) => this.(errs := errs + [e])
    }
  }

  /** A closure environment: received data and captured promise handles (indices of cells). */
  datatype Env = Env(data: Data, proms: seq<nat>) {
    function WithArg(arg: Fate): Env {
      this.(data := data.WithArg(arg))
    }

    function WithPromise(p: nat): Env {
      this.(proms := proms + [p])
    }
  }

  /** What code knows that returns the value it received last, or raises the error it received last. */
  const LAST_VALUE := (d: Data) => if d.vals == [] then Blank else d.vals[|d.vals| - 1]
  const LAST_ERROR := (d: Data) => if d.errs == [] then Error(0) else d.errs[|d.errs| - 1]

  datatype Script =
    | Return(value: Data -> Value)
    | ReturnPromise(r: nat)
    | Throw(error: Data -> Error)
    | If(test: Data -> bool, yes: Script, no: Script)
      // a library call that runs no user code
    | Do(op: Op, k: Script)
      // call of an async function; its promise joins the environment
    | Call(body: Script, k: Script)
      // AsyncCtx::await: `onValue` continues with the value, `onError` where the exception is caught
    | Await(r: nat, onValue: Script, onError: Script)

  datatype Op =
      // Promise<T>(executor): a pending promise whose context is kept
    | New
      // Promise<T>::resolved(value) and Promise<T>::rejected(error)
    | NewSettled(isVoid: bool, fate: Data -> Settled)
      // promises[r].then(body) and promises[r]._catch(body)
    | Chain(side: Side, r: nat, isVoid: bool, body: Script)
      // ctx.resolve(value), ctx.reject(error); only a promise made by `New` has a context
    | SettleWith(r: nat, fate: Data -> Settled)
      // ctx.resolve(promise)
    | Follow(r: nat, q: nat)
      // TaskLoop::oneshot and TaskLoop::add
    | Oneshot(body: Script)
    | Permanent(body: Script)

  /** The number of promise handles that an operation adds to the environment. */
  function Binds(op: Op): nat {
    if op.New? || op.NewSettled? || op.Chain? then 1 else 0
  }

  /** Every handle that `s` mentions is among `n` captured ones, and only async bodies await, each through its
      own `AsyncCtx`; `Guarantees.AwaitThrough` is an await through a context that was copied out. */
  predicate Scoped(s: Script, n: nat, isAsync: bool) {
    match s
    case Return(_) => true
    case ReturnPromise(r) => r < n
    case Throw(_) => true
    case If(_, a, b) => Scoped(a, n, isAsync) && Scoped(b, n, isAsync)
    case Do(op, k) => ScopedOp(op, n) && Scoped(k, n + Binds(op), isAsync)
    case Call(body, k) => Scoped(body, n, true) && Scoped(k, n + 1, isAsync)
    case Await(r, kv, ke) => isAsync && r < n && Scoped(kv, n, isAsync) && Scoped(ke, n, isAsync)
  }

  predicate ScopedOp(op: Op, n: nat) {
    match op
    case New => true
    case NewSettled(_, _) => true
    case Chain(_, r, _, body) => r < n && Scoped(body, n, false)
    case SettleWith(r, _) => r < n
    case Follow(r, q) => r < n && q < n
    case Oneshot(body) => Scoped(body, n, false)
    case Permanent(body) => Scoped(body, n, false)
  }

  /** How much running `s` can still add to the work waiting in the system. */
  function Weight(s: Script): nat {
    match s
    case Return(_) => 1
    case ReturnPromise(_) => 1
    case Throw(_) => 1
    case If(_, a, b) => 1 + Weight(a) + Weight(b)
    case Do(op, k) => 1 + OpWeight(op) + Weight(k)
    case Call(body, k) => 3 + Weight(body) + Weight(k)
    case Await(_, kv, ke) => 5 + Weight(kv) + Weight(ke)
  }

  function OpWeight(op: Op): nat {
    match op
    case New => 0
    case NewSettled(_, _) => 0
    case Chain(_, _, _, body) => Weight(body) + 3
    case SettleWith(_, _) => 0
    case Follow(_, _) => 2
    case Oneshot(body) => Weight(body) + 3
    case Permanent(body) => Weight(body) + 3
  }
}
