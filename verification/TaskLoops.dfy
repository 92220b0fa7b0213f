/** One pass of the task loop: the permanent tasks, then the oneshot tasks. */
module TaskLoops {
  import opened Scripts
  import opened Promises
  import opened Invariant
  import opened Weights
  import opened Draining
  import opened Equations
  import opened Settling
  import opened FixedPoints
  import opened Guarantees

  // -------------------------------------------------------------------------------------------
  // Permanent tasks
  // -------------------------------------------------------------------------------------------

  /** Run one task; the flag says that an exception came out of it. */
  function RunTask(t: Task, st: State): (State, bool)
    requires Ready(st) && TaskOk(t, st)
  {
    match t
    case RunPromiseTask => (Drain(st), false)
    case RunCode(env, body) =>
      var r := Exec(body, env, -1, st);
      (r.0, r.1.Threw?)
  }

  lemma {:induction false} DrainTotal(st: State)
    requires Ready(st)
    ensures Total(Drain(st)) <= Total(st)
    decreases Total(st), |st.queue|
  {
    if st.queue != [] {
      StepInv(st);
      DrainTotal(Step(st));
    }
  }

  lemma RunTaskInv(t: Task, st: State)
    requires Ready(st) && TaskOk(t, st)
    ensures Ready(RunTask(t, st).0) && Evolves(st, RunTask(t, st).0)
    ensures Total(RunTask(t, st).0) < Total(st) + TaskWeight(t)
  {
    match t
    case RunPromiseTask =>
      DrainInv(st);
      DrainTotal(st);
    case RunCode(env, body) =>
      ExecInv(body, env, -1, st);
      ExecTotal(body, env, -1, st);
  }

  /** The work of the permanent tasks from position `i` on, and of everything else. */
  function RestPermanents(st: State, i: nat): nat
    requires i <= |st.permanents|
  {
    Total(st.(permanents := st.permanents[i..]))
  }

  lemma RestPermanentsTotal(st: State, i: nat)
    requires i <= |st.permanents|
    ensures RestPermanents(st, i) + Sum(st.permanents[..i], TaskWeight) == Total(st)
  {
    SumConcat(st.permanents[..i], st.permanents[i..], TaskWeight);
    assert st.permanents[..i] + st.permanents[i..] == st.permanents;
  }

  lemma PermanentWork(st: State, i: nat, st': State)
    requires i < |st.permanents| && st.permanents <= st'.permanents
    requires Total(st') < Total(st) + TaskWeight(st.permanents[i])
    ensures RestPermanents(st', i + 1) < RestPermanents(st, i)
  {
    var t := st.permanents[i];
    assert st'.permanents[..i + 1] == st.permanents[..i] + [t];
    RestPermanentsTotal(st, i);
    RestPermanentsTotal(st', i + 1);
    SumSingle(st.permanents[..i], t, TaskWeight);
  }

  lemma PermanentOk(st: State, i: nat)
    requires ListsInv(st) && i < |st.permanents|
    ensures TaskOk(st.permanents[i], st)
  {
  }

  /** Run permanent task `i`. */
  function RunPermanent(st: State, i: nat): (State, bool)
    requires Ready(st) && i < |st.permanents|
  {
    PermanentOk(st, i);
    RunTask(st.permanents[i], st)
  }

  lemma PermanentInv(st: State, i: nat)
    requires Ready(st) && i < |st.permanents|
    ensures var st' := RunPermanent(st, i).0;
            && Ready(st') && Evolves(st, st') && i < |st'.permanents|
            && RestPermanents(st', i + 1) < RestPermanents(st, i)
  {
    PermanentOk(st, i);
    RunTaskInv(st.permanents[i], st);
    PermanentWork(st, i, RunPermanent(st, i).0);
  }

  /** The first loop of `run_once`, over a queue that its tasks push onto.  An exception ends the pass: it
      leaves `run_once`. */
  function RunPermanents(st: State, i: nat): (State, bool)
    requires Ready(st) && i <= |st.permanents|
    decreases RestPermanents(st, i)
  {
    if i == |st.permanents| then (st, false)
    else
      PermanentInv(st, i);
      var r := RunPermanent(st, i);
      if r.1 then r else RunPermanents(r.0, i + 1)
  }

  /** One turn of the loop. */
  lemma PermanentTurn(st: State, i: nat)
    requires Ready(st) && i < |st.permanents|
    ensures var r := RunPermanent(st, i);
            && Ready(r.0) && i < |r.0.permanents| && RestPermanents(r.0, i + 1) < RestPermanents(st, i)
            && RunPermanents(st, i) == if r.1 then r else RunPermanents(r.0, i + 1)
  {
    PermanentInv(st, i);
  }

  lemma {:induction false} PermanentsInv(st: State, i: nat)
    requires Ready(st) && i <= |st.permanents|
    ensures Ready(RunPermanents(st, i).0) && Evolves(st, RunPermanents(st, i).0)
    decreases RestPermanents(st, i)
  {
    if i < |st.permanents| {
      PermanentInv(st, i);
      var r := RunPermanent(st, i);
      if !r.1 {
        PermanentsInv(r.0, i + 1);
        EvolvesTrans(st, r.0, RunPermanents(r.0, i + 1).0);
      }
    }
  }

  // -------------------------------------------------------------------------------------------
  // Oneshot tasks
  // -------------------------------------------------------------------------------------------

  /** The work of the oneshots from position `i` on, and of everything else. */
  function Rest(st: State, i: nat): nat
    requires i <= |st.oneshots|
  {
    Total(st.(oneshots := st.oneshots[i..]))
  }

  /** A pass over the oneshot queue: the state, the tasks that were run, and whether one threw. */
  datatype Pass = Pass(st: State, ran: seq<Handler>, threw: bool)

  lemma OneshotOk(st: State, i: nat)
    requires ListsInv(st) && i < |st.oneshots|
    ensures var h := st.oneshots[i];
            h.Closure? && EnvOk(h.env, |st.cells|) && Scoped(h.body, |h.env.proms|, false)
  {
    assert HandlerOk(st.oneshots[i], st);
  }

  /** Oneshot `i` is run: its work is used up, and what it adds weighs less than it did. */
  lemma OneshotWork(st: State, i: nat, st': State)
    requires i < |st.oneshots| && st.oneshots[i].Closure? && st.oneshots <= st'.oneshots
    requires Total(st') <= Total(st) + Weight(st.oneshots[i].body)
    ensures Rest(st', i + 1) < Rest(st, i)
  {
    var h := st.oneshots[i];
    assert st'.oneshots[..i + 1] == st.oneshots[..i] + [h];
    RestTotal(st, i);
    RestTotal(st', i + 1);
    SumSingle(st.oneshots[..i], h, HandlerWeight);
  }

  /** Run oneshot `i`. */
  function RunOneshot(st: State, i: nat): (State, bool)
    requires Ready(st) && i < |st.oneshots|
  {
    OneshotOk(st, i);
    var r := Exec(st.oneshots[i].body, st.oneshots[i].env, -1, st);
    (r.0, r.1.Threw?)
  }

  lemma OneshotEvolves(st: State, i: nat)
    requires Ready(st) && i < |st.oneshots|
    ensures Ready(RunOneshot(st, i).0) && Evolves(st, RunOneshot(st, i).0)
  {
    OneshotOk(st, i);
    ExecInv(st.oneshots[i].body, st.oneshots[i].env, -1, st);
  }

  lemma OneshotInv(st: State, i: nat)
    requires Ready(st) && i < |st.oneshots|
    ensures var st' := RunOneshot(st, i).0;
            Ready(st') && i < |st'.oneshots| && Rest(st', i + 1) < Rest(st, i)
  {
    OneshotEvolves(st, i);
    OneshotOk(st, i);
    ExecTotal(st.oneshots[i].body, st.oneshots[i].env, -1, st);
    OneshotWork(st, i, RunOneshot(st, i).0);
  }

  lemma RestTotal(st: State, i: nat)
    requires i <= |st.oneshots|
    ensures Rest(st, i) + Sum(st.oneshots[..i], HandlerWeight) == Total(st)
  {
    SumConcat(st.oneshots[..i], st.oneshots[i..], HandlerWeight);
    assert st.oneshots[..i] + st.oneshots[i..] == st.oneshots;
  }

  /** The second loop of `run_once`; tasks push onto the queue that it walks. */
  function RunOneshots(st: State, i: nat): Pass
    requires Ready(st) && i <= |st.oneshots|
    decreases Rest(st, i)
  {
    if i == |st.oneshots| then Pass(st, [], false)
    else
      OneshotInv(st, i);
      var h := st.oneshots[i];
      var r := RunOneshot(st, i);
      if r.1 then Pass(r.0, [h], true)
      else
        var q := RunOneshots(r.0, i + 1);
        Pass(q.st, [h] + q.ran, q.threw)
  }

  function Preceded(ran: seq<Handler>, p: Pass): Pass {
    Pass(p.st, ran + p.ran, p.threw)
  }

  /** One turn of the loop, seen from where the pass started. */
  lemma OneshotTurn(start: State, st: State, i: nat, ran: seq<Handler>)
    requires Ready(start) && Ready(st) && i < |st.oneshots|
    requires RunOneshots(start, 0) == Preceded(ran, RunOneshots(st, i))
    ensures var r, ran' := RunOneshot(st, i), ran + [st.oneshots[i]];
            && Ready(r.0) && i < |r.0.oneshots| && Rest(r.0, i + 1) < Rest(st, i)
            && RunOneshots(start, 0) == if r.1 then Pass(r.0, ran', true) else Preceded(ran', RunOneshots(r.0, i + 1))
  {
    OneshotInv(st, i);
    var r := RunOneshot(st, i);
    if !r.1 {
      var q := RunOneshots(r.0, i + 1);
      assert ran + ([st.oneshots[i]] + q.ran) == ran + [st.oneshots[i]] + q.ran;
    }
  }

  lemma {:induction false} OneshotsEvolve(st: State, i: nat)
    requires Ready(st) && i <= |st.oneshots|
    ensures Ready(RunOneshots(st, i).st) && Evolves(st, RunOneshots(st, i).st)
    decreases Rest(st, i)
  {
    if i < |st.oneshots| {
      var r := RunOneshot(st, i);
      OneshotInv(st, i);
      OneshotEvolves(st, i);
      if !r.1 {
        OneshotsEvolve(r.0, i + 1);
        EvolvesTrans(st, r.0, RunOneshots(r.0, i + 1).st);
      }
    }
  }

  /** A pass that started at position `i` of `waiting` ran the queue in order, each oneshot once and those
      pushed on the way at their place; it ran to the end of the queue unless a task threw. */
  ghost predicate Fifo(waiting: seq<Handler>, i: nat, p: Pass) {
    && waiting <= p.st.oneshots
    && i + |p.ran| <= |p.st.oneshots|
    && p.ran == p.st.oneshots[i..i + |p.ran|]
    && (if p.threw then p.ran != [] else i + |p.ran| == |p.st.oneshots|)
  }

  lemma {:induction false} OneshotsFifo(st: State, i: nat)
    requires Ready(st) && i <= |st.oneshots|
    ensures Fifo(st.oneshots, i, RunOneshots(st, i))
    decreases Rest(st, i)
  {
    if i < |st.oneshots| {
      var r := RunOneshot(st, i);
      OneshotInv(st, i);
      OneshotEvolves(st, i);
      if r.1 {
        assert r.0.oneshots[i] == st.oneshots[i];
      } else {
        OneshotsFifo(r.0, i + 1);
        FifoStep(st.oneshots, r.0.oneshots, i, RunOneshots(r.0, i + 1));
      }
    }
  }

  lemma FifoStep(waiting: seq<Handler>, next: seq<Handler>, i: nat, q: Pass)
    requires i < |waiting| && waiting <= next && Fifo(next, i + 1, q)
    ensures Fifo(waiting, i, Pass(q.st, [waiting[i]] + q.ran, q.threw))
  {
    assert q.st.oneshots[i] == next[i] == waiting[i];
  }

  // -------------------------------------------------------------------------------------------
  // The pass
  // -------------------------------------------------------------------------------------------

  /** `run_once`.  The oneshot queue is cleared only when the pass reaches its end. */
  function RunOnce(st: State): Pass
    requires Ready(st)
  {
    PermanentsInv(st, 0);
    var r := RunPermanents(st, 0);
    if r.1 then Pass(r.0, [], true)
    else
      var q := RunOneshots(r.0, 0);
      if q.threw then q else Pass(q.st.(oneshots := []), q.ran, false)
  }

  lemma RunOnceCases(st: State)
    requires Ready(st)
    ensures var p, r := RunOnce(st), RunPermanents(st, 0);
            && Ready(r.0)
            && if r.1 then p == Pass(r.0, [], true)
               else var q := RunOneshots(r.0, 0);
                    p == if q.threw then q else Pass(q.st.(oneshots := []), q.ran, false)
  {
    PermanentsInv(st, 0);
  }

  lemma ClearedReady(st: State)
    requires Ready(st)
    ensures Ready(st.(oneshots := []))
  {
    var st' := st.(oneshots := []);
    forall p, side | 0 <= p < |st.cells| ensures ListOk(st', p, side) && ArmedInv(st', p, side) {
      assert ListOk(st, p, side) && ArmedInv(st, p, side);
      forall i | 0 <= i < |st.cells[p].List(side)| ensures ArmedOk(st', p, side, st.cells[p].List(side)[i]) {
        assert ArmedOk(st, p, side, st.cells[p].List(side)[i]);
      }
    }
    forall i | 0 <= i < |st.log| ensures EntryOk(st', st.log[i]) { assert EntryOk(st, st.log[i]); }
    forall c | 0 <= c < |st.cells| ensures Accounted(st', c) { assert Accounted(st, c); }
    forall g | 0 <= g < |st.gens| ensures SuspendedOk(st', g) { assert SuspendedOk(st, g); }
  }

  /** A pass keeps the engine's invariant and rewrites no outcome and no log entry. */
  lemma RunOnceInv(st: State)
    requires Ready(st)
    ensures Ready(RunOnce(st).st) && Remembers(st, RunOnce(st).st)
  {
    PermanentsInv(st, 0);
    var r := RunPermanents(st, 0);
    if !r.1 {
      OneshotsEvolve(r.0, 0);
      var q := RunOneshots(r.0, 0);
      EvolvesTrans(st, r.0, q.st);
      ClearedReady(q.st);
    }
  }

  /** A pass that ends normally runs the oneshots that were waiting, then those that were added, each
      once and in order, and leaves none. */
  lemma OneshotsRunOnce(st: State)
    requires Ready(st) && !RunOnce(st).threw
    ensures RunOnce(st).st.oneshots == []
    ensures Ready(RunPermanents(st, 0).0)
    ensures st.oneshots <= RunPermanents(st, 0).0.oneshots <= RunOnce(st).ran
    ensures RunOnce(st).ran == RunOneshots(RunPermanents(st, 0).0, 0).st.oneshots
  {
    PermanentsInv(st, 0);
    OneshotsFifo(RunPermanents(st, 0).0, 0);
  }

  // -------------------------------------------------------------------------------------------
  // Tasks that throw
  // -------------------------------------------------------------------------------------------

  /** A task as far as throwing is concerned. */
  datatype Job = Job(body: Script, data: Data)

  /** The two queues of the task loop. */
  datatype Queue = Permanents | Oneshots

  /** Code that is no async body throws if and only if it comes to a `Throw` by its own tests; what it finds
      the promises in does not matter. */
  predicate Raises(s: Script, d: Data) {
    match s
    case Throw(_) => true
    case If(t, a, b) => if t(d) then Raises(a, d) else Raises(b, d)
    case Do(_, k) => Raises(k, d)
    case Call(_, k) => Raises(k, d)
    case _ => false
  }

  lemma {:induction false} ThrowsIff(s: Script, env: Env, st: State)
    requires EnvOk(env, |st.cells|) && Scoped(s, |env.proms|, false)
    ensures Exec(s, env, -1, st).1.Threw? <==> Raises(s, env.data)
    decreases s
  {
    match s
    case If(t, a, b) => ThrowsIff(if t(env.data) then a else b, env, st);
    case Do(op, k) => ThrowsIff(k, LibraryCall(op, env, st).0, LibraryCall(op, env, st).1);
    case Call(body, k) => ThrowsIff(k, env.WithPromise(|st.cells|), CallAsync(st, env, body));
    case Return(_) =>
    case ReturnPromise(_) =>
    case Throw(_) =>
  }

  /** The tasks that running `s` pushes onto queue `q`, in order; an async body it calls runs up to its first
      await. */
  function Pushes(s: Script, d: Data, q: Queue): seq<Job> {
    match s
    case If(t, a, b) => if t(d) then Pushes(a, d, q) else Pushes(b, d, q)
    case Do(op, k) => PushesOp(op, d, q) + Pushes(k, d, q)
    case Call(body, k) => Pushes(body, d, q) + Pushes(k, d, q)
    case _ => []
  }

  function PushesOp(op: Op, d: Data, q: Queue): seq<Job> {
    if q.Oneshots? && op.Oneshot? then [Job(op.body, d)]
    else if q.Permanents? && op.Permanent? then [Job(op.body, d)]
    else []
  }

  function JobOf(h: Handler): Job {
    match h
    case Closure(_, env, body) => Job(body, env.data)
    case Resume(_) => Job(Return(_ => Blank), Data([], []))
  }

  function JobsOf(hs: seq<Handler>): (js: seq<Job>)
    ensures |js| == |hs|
  {
    seq(|hs|, i requires 0 <= i < |hs| => JobOf(hs[i]))
  }

  function TaskJob(t: Task): Job {
    match t
    case RunCode(env, body) => Job(body, env.data)
    case RunPromiseTask => Job(Return(_ => Blank), Data([], []))
  }

  function TaskJobs(ts: seq<Task>): (js: seq<Job>)
    ensures |js| == |ts|
  {
    seq(|ts|, i requires 0 <= i < |ts| => TaskJob(ts[i]))
  }

  lemma JobsConcat(xs: seq<Handler>, ys: seq<Handler>)
    ensures JobsOf(xs + ys) == JobsOf(xs) + JobsOf(ys)
  {
  }

  lemma TaskJobsConcat(xs: seq<Task>, ys: seq<Task>)
    ensures TaskJobs(xs + ys) == TaskJobs(xs) + TaskJobs(ys)
  {
  }

  /** User code only: `promise_task` is not among them. */
  ghost predicate AllCode(ts: seq<Task>) {
    forall i :: 0 <= i < |ts| ==> ts[i].RunCode?
  }

  /** `js` have been pushed to the oneshot queue, `ks` to the permanent queue. */
  ghost predicate Pushed(a: State, b: State, js: seq<Job>, ks: seq<Job>) {
    && a.oneshots <= b.oneshots && JobsOf(b.oneshots[|a.oneshots|..]) == js
    && a.permanents <= b.permanents && TaskJobs(b.permanents[|a.permanents|..]) == ks
    && AllCode(b.permanents[|a.permanents|..])
  }

  lemma PushedTrans(a: State, b: State, c: State, js: seq<Job>, ks: seq<Job>, js': seq<Job>, ks': seq<Job>)
    requires Pushed(a, b, js, ks) && Pushed(b, c, js', ks')
    ensures Pushed(a, c, js + js', ks + ks')
  {
    var n, m := |a.oneshots|, |b.oneshots|;
    assert c.oneshots[n..] == b.oneshots[n..] + c.oneshots[m..];
    JobsConcat(b.oneshots[n..], c.oneshots[m..]);
    var k, l := |a.permanents|, |b.permanents|;
    assert c.permanents[k..] == b.permanents[k..] + c.permanents[l..];
    TaskJobsConcat(b.permanents[k..], c.permanents[l..]);
  }

  lemma {:induction false} ExecPushes(s: Script, env: Env, cur: int, st: State)
    requires EnvOk(env, |st.cells|) && cur < |st.gens| && Scoped(s, |env.proms|, 0 <= cur)
    ensures Pushed(st, Exec(s, env, cur, st).0, Pushes(s, env.data, Oneshots), Pushes(s, env.data, Permanents))
    decreases s, 0
  {
    match s
    case If(t, a, b) => ExecPushes(if t(env.data) then a else b, env, cur, st);
    case Do(op, k) =>
      var r := LibraryCall(op, env, st);
      LibraryPushes(op, env, st);
      ExecPushes(k, r.0, cur, r.1);
      PushedTrans(st, r.1, Exec(k, r.0, cur, r.1).0, PushesOp(op, env.data, Oneshots),
                  PushesOp(op, env.data, Permanents), Pushes(k, env.data, Oneshots), Pushes(k, env.data, Permanents));
    case Call(body, k) =>
      var st1, env1 := CallAsync(st, env, body), env.WithPromise(|st.cells|);
      CallPushes(st, env, body);
      ExecPushes(k, env1, cur, st1);
      PushedTrans(st, st1, Exec(k, env1, cur, st1).0, Pushes(body, env.data, Oneshots),
                  Pushes(body, env.data, Permanents), Pushes(k, env.data, Oneshots), Pushes(k, env.data, Permanents));
    case Await(_, _, _) =>
    case Return(_) =>
    case ReturnPromise(_) =>
    case Throw(_) =>
  }

  lemma LibraryPushes(op: Op, env: Env, st: State)
    requires ScopedOp(op, |env.proms|) && EnvOk(env, |st.cells|)
    ensures Pushed(st, LibraryCall(op, env, st).1, PushesOp(op, env.data, Oneshots),
                   PushesOp(op, env.data, Permanents))
  {
    var st' := LibraryCall(op, env, st).1;
    assert op.Oneshot? ==> st'.oneshots[|st.oneshots|..] == [Closure(true, env, op.body)];
    assert op.Permanent? ==> st'.permanents[|st.permanents|..] == [RunCode(env, op.body)];
  }

  lemma {:induction false} CallPushes(st: State, env: Env, body: Script)
    requires EnvOk(env, |st.cells|) && Scoped(body, |env.proms|, true)
    ensures Pushed(st, CallAsync(st, env, body), Pushes(body, env.data, Oneshots), Pushes(body, env.data, Permanents))
    decreases body, 1
  {
    var st1 := StartAsync(st, env, body);
    ExecPushes(body, env, |st.gens|, st1);
  }

  function JobsWeight(js: seq<Job>): nat {
    if js == [] then 0 else Weight(js[0].body) + 1 + JobsWeight(js[1..])
  }

  lemma {:induction false} JobsWeightConcat(xs: seq<Job>, ys: seq<Job>)
    ensures JobsWeight(xs + ys) == JobsWeight(xs) + JobsWeight(ys)
  {
    if xs == [] {
      assert xs + ys == ys;
    } else {
      JobsWeightConcat(xs[1..], ys);
      assert (xs + ys)[1..] == xs[1..] + ys;
    }
  }

  lemma {:induction false} PushesWeight(s: Script, d: Data, q: Queue)
    ensures JobsWeight(Pushes(s, d, q)) <= Weight(s)
  {
    match s
    case If(t, a, b) => PushesWeight(if t(d) then a else b, d, q);
    case Do(op, k) =>
      PushesWeight(k, d, q);
      JobsWeightConcat(PushesOp(op, d, q), Pushes(k, d, q));
    case Call(body, k) =>
      PushesWeight(body, d, q);
      PushesWeight(k, d, q);
      JobsWeightConcat(Pushes(body, d, q), Pushes(k, d, q));
    case _ =>
  }

  /** What is waiting in queue `q` once the first job has run. */
  function Following(js: seq<Job>, q: Queue): (ks: seq<Job>)
    requires js != []
    ensures JobsWeight(ks) < JobsWeight(js)
  {
    PushesWeight(js[0].body, js[0].data, q);
    JobsWeightConcat(js[1..], Pushes(js[0].body, js[0].data, q));
    js[1..] + Pushes(js[0].body, js[0].data, q)
  }

  /** Whether one of the jobs in queue `q`, or of those that they push, or of those that these push, throws. */
  predicate AnyRaises(js: seq<Job>, q: Queue)
    decreases JobsWeight(js)
  {
    js != [] && (Raises(js[0].body, js[0].data) || AnyRaises(Following(js, q), q))
  }

  /** The oneshots that the permanent tasks `js` push, and those that these push, up to one that throws. */
  function Gathered(js: seq<Job>): seq<Job>
    decreases JobsWeight(js)
  {
    if js == [] then []
    else
      Pushes(js[0].body, js[0].data, Oneshots)
        + if Raises(js[0].body, js[0].data) then [] else Gathered(Following(js, Permanents))
  }

  /** A queue after its task `i` has run and `more` has been pushed. */
  lemma RestAfter<T>(ts: seq<T>, us: seq<T>, i: nat)
    requires i < |ts| && ts <= us
    ensures us[i + 1..] == ts[i + 1..] + us[|ts|..]
  {
  }

  lemma OneshotJobs(st: State, i: nat)
    requires Ready(st) && i < |st.oneshots|
    ensures var r, js := RunOneshot(st, i), JobsOf(st.oneshots[i..]);
            && i < |r.0.oneshots| && (r.1 <==> Raises(js[0].body, js[0].data))
            && JobsOf(r.0.oneshots[i + 1..]) == Following(js, Oneshots)
  {
    OneshotOk(st, i);
    var h, r := st.oneshots[i], RunOneshot(st, i);
    ThrowsIff(h.body, h.env, st);
    ExecPushes(h.body, h.env, -1, st);
    RestAfter(st.oneshots, r.0.oneshots, i);
    JobsConcat(st.oneshots[i + 1..], r.0.oneshots[|st.oneshots|..]);
    assert JobsOf(st.oneshots[i..])[1..] == JobsOf(st.oneshots[i + 1..]);
  }

  /** The second loop of `run_once` ends by an exception if and only if a oneshot in the queue, or one that
      is pushed in the course of it, throws. */
  lemma {:induction false} OneshotsThrowIff(st: State, i: nat)
    requires Ready(st) && i <= |st.oneshots|
    ensures RunOneshots(st, i).threw <==> AnyRaises(JobsOf(st.oneshots[i..]), Oneshots)
    decreases Rest(st, i)
  {
    if i < |st.oneshots| {
      OneshotJobs(st, i);
      OneshotInv(st, i);
      var r := RunOneshot(st, i);
      if !r.1 { OneshotsThrowIff(r.0, i + 1); }
    }
  }

  lemma PermanentJobs(st: State, i: nat)
    requires Ready(st) && i < |st.permanents| && AllCode(st.permanents[i..])
    ensures var r, js := RunPermanent(st, i), TaskJobs(st.permanents[i..]);
            && i < |r.0.permanents| && (r.1 <==> Raises(js[0].body, js[0].data))
            && AllCode(r.0.permanents[i + 1..])
            && TaskJobs(r.0.permanents[i + 1..]) == Following(js, Permanents)
            && JobsOf(r.0.oneshots) == JobsOf(st.oneshots) + Pushes(js[0].body, js[0].data, Oneshots)
  {
    PermanentOk(st, i);
    var t, r := st.permanents[i], RunPermanent(st, i);
    assert st.permanents[i..][0] == t;
    ThrowsIff(t.body, t.env, st);
    ExecPushes(t.body, t.env, -1, st);
    RestAfter(st.permanents, r.0.permanents, i);
    TaskJobsConcat(st.permanents[i + 1..], r.0.permanents[|st.permanents|..]);
    assert TaskJobs(st.permanents[i..])[1..] == TaskJobs(st.permanents[i + 1..]);
    assert st.permanents[i + 1..] == st.permanents[i..][1..];
    assert r.0.oneshots == st.oneshots + r.0.oneshots[|st.oneshots|..];
    JobsConcat(st.oneshots, r.0.oneshots[|st.oneshots|..]);
  }

  /** The first loop, where it runs user code only, ends by an exception if and only if a permanent task in the
      queue, or one that is pushed in the course of it, throws; and these push the oneshots that they push. */
  lemma {:induction false} PermanentsThrowIff(st: State, i: nat)
    requires Ready(st) && i <= |st.permanents| && AllCode(st.permanents[i..])
    ensures var r, js := RunPermanents(st, i), TaskJobs(st.permanents[i..]);
            && (r.1 <==> AnyRaises(js, Permanents))
            && JobsOf(r.0.oneshots) == JobsOf(st.oneshots) + Gathered(js)
    decreases RestPermanents(st, i)
  {
    if i < |st.permanents| {
      var q, js := RunPermanent(st, i), TaskJobs(st.permanents[i..]);
      PermanentJobs(st, i);
      PermanentTurn(st, i);
      if !q.1 { PermanentsThrowIff(q.0, i + 1); }
      GatheredAfter(JobsOf(st.oneshots), js);
    }
  }

  lemma GatheredAfter(os: seq<Job>, js: seq<Job>)
    requires js != []
    ensures os + Gathered(js) ==
              os + Pushes(js[0].body, js[0].data, Oneshots)
                + if Raises(js[0].body, js[0].data) then [] else Gathered(Following(js, Permanents))
  {
    var later := if Raises(js[0].body, js[0].data) then [] else Gathered(Following(js, Permanents));
    ThreeJobs(os, Pushes(js[0].body, js[0].data, Oneshots), later);
  }

  lemma ThreeJobs(xs: seq<Job>, ys: seq<Job>, zs: seq<Job>)
    ensures xs + (ys + zs) == xs + ys + zs
  {
  }

  predicate TaskRaises(t: Task) {
    t.RunCode? && Raises(t.body, t.env.data)
  }

  lemma PermanentThrowsIff(st: State, i: nat)
    requires Ready(st) && i < |st.permanents|
    ensures RunPermanent(st, i).1 <==> TaskRaises(st.permanents[i])
  {
    PermanentOk(st, i);
    var t := st.permanents[i];
    if t.RunCode? { ThrowsIff(t.body, t.env, st); }
  }

  /** Whatever the permanent tasks are, `promise_task` among them or not: the first loop has ended by an exception
      if and only if one of those that are in the queue afterwards throws. */
  lemma {:induction false} PermanentsThrewIff(st: State, i: nat)
    requires Ready(st) && i <= |st.permanents|
    ensures var r := RunPermanents(st, i);
            && st.permanents <= r.0.permanents
            && (r.1 <==> exists k :: i <= k < |r.0.permanents| && TaskRaises(r.0.permanents[k]))
    decreases RestPermanents(st, i)
  {
    if i < |st.permanents| {
      var q := RunPermanent(st, i);
      PermanentThrowsIff(st, i);
      PermanentInv(st, i);
      assert st.permanents <= q.0.permanents;
      if q.1 {
        assert TaskRaises(q.0.permanents[i]);
      } else {
        PermanentsThrewIff(q.0, i + 1);
        assert RunPermanents(st, i).0.permanents[i] == st.permanents[i];
      }
    }
  }

  /** After the permanent tasks the oneshots decide. */
  lemma OneshotsDecide(st: State)
    requires Ready(st)
    ensures var p, r := RunOnce(st), RunPermanents(st, 0);
            && (r.1 <==> exists k :: 0 <= k < |r.0.permanents| && TaskRaises(r.0.permanents[k]))
            && (p.st.oneshots == [] <==> if r.1 then r.0.oneshots == [] else !AnyRaises(JobsOf(r.0.oneshots), Oneshots))
            && (p.threw <==> r.1 || AnyRaises(JobsOf(r.0.oneshots), Oneshots))
            && (p.threw ==> p.ran <= p.st.oneshots)
  {
    PermanentsInv(st, 0);
    PermanentsThrewIff(st, 0);
    var r := RunPermanents(st, 0);
    if !r.1 {
      OneshotsFifo(r.0, 0);
      OneshotsThrowIff(r.0, 0);
      assert r.0.oneshots[0..] == r.0.oneshots;
    }
  }

  /** When a task throws the queue is not cleared.  With `promise_task` first, the pass can be told from the two
      queues as the drain leaves them, `ps` and `os` being the permanent tasks behind it and the oneshots,
      those that the permanent tasks push included: it ends by an exception if and only if one of either
      queue, or one that they push, throws; and oneshots are left if and only if it does, unless it is a
      permanent task and there is no oneshot yet. */
  lemma OneshotsLeftIff(st: State)
    requires Ready(st) && st.permanents != [] && st.permanents[0] == RunPromiseTask
    requires Ready(Drain(st)) && Drain(st).permanents != [] ==> AllCode(Drain(st).permanents[1..])
    ensures var p, d := RunOnce(st), Drain(st);
            && Ready(d) && d.permanents != []
            && var ps := TaskJobs(d.permanents[1..]);
               var os := JobsOf(d.oneshots) + Gathered(ps);
               && (p.threw <==> AnyRaises(ps, Permanents) || AnyRaises(os, Oneshots))
               && (p.st.oneshots == [] <==> if AnyRaises(ps, Permanents) then os == [] else !AnyRaises(os, Oneshots))
  {
    DrainInv(st);
    PermanentTurn(st, 0);
    assert Drain(st).permanents[0] == st.permanents[0];
    PermanentsThrowIff(Drain(st), 1);
    OneshotsDecide(st);
  }

  /** With `promise_task` as the only permanent task and nothing to call back, this can be read off the
      oneshot queue before the pass. */
  lemma QuietPassIff(st: State)
    requires Ready(st) && st.permanents == [RunPromiseTask] && st.queue == []
    ensures RunOnce(st).st.oneshots == [] <==> !AnyRaises(JobsOf(st.oneshots), Oneshots)
  {
    assert Drain(st) == st;
    OneshotsLeftIff(st);
    assert JobsOf(st.oneshots) + [] == JobsOf(st.oneshots);
  }

  /** What is left behind by a throw runs again: the next pass that gets to the oneshots starts with the one
      that the failed pass started with. */
  lemma RunsAgain(st: State)
    requires Ready(st) && RunOnce(st).threw && RunOnce(st).ran != []
    ensures var p := RunOnce(st);
            && Ready(p.st)
            && (!RunPermanents(p.st, 0).1 ==> RunOnce(p.st).ran != [] && RunOnce(p.st).ran[0] == p.ran[0])
  {
    var p := RunOnce(st);
    RunOnceInv(st);
    OneshotsDecide(st);
    PermanentsInv(p.st, 0);
    var r := RunPermanents(p.st, 0);
    if !r.1 {
      assert r.0.oneshots[0] == p.st.oneshots[0];
      OneshotsFifo(r.0, 0);
    }
  }

  const NO_DATA := Env(Data([], []), [])

  /** Two oneshots, the second of which throws: each pass runs both of them again. */
  lemma RunsAgainInstance(v: Data -> Value, e: Data -> Error)
    ensures var h0, h1 := Closure(true, NO_DATA, Return(v)), Closure(true, NO_DATA, Throw(e));
            var st := INIT.(oneshots := [h0, h1]);
            Ready(st) && RunOnce(st) == Pass(st, [h0, h1], true)
  {
    var h0, h1 := Closure(true, NO_DATA, Return(v)), Closure(true, NO_DATA, Throw(e));
    var st := INIT.(oneshots := [h0, h1]);
    assert Drain(st) == st;
    assert RunPermanents(st, 1) == (st, false);
    assert RunPermanents(st, 0) == (st, false);
    assert RunOneshots(st, 1) == Pass(st, [h1], true);
    assert [h0] + [h1] == [h0, h1];
  }

  // -------------------------------------------------------------------------------------------
  // Latency
  // -------------------------------------------------------------------------------------------

  /** The permanent tasks from `i` up to `j`. */
  function RunTasks(st: State, i: nat, j: nat): (State, bool)
    requires Ready(st) && i <= j <= |st.permanents|
    decreases j - i
  {
    if i == j then (st, false)
    else
      PermanentInv(st, i);
      var r := RunPermanent(st, i);
      if r.1 then r else RunTasks(r.0, i + 1, j)
  }

  lemma {:induction false} RunTasksInv(st: State, i: nat, j: nat)
    requires Ready(st) && i <= j <= |st.permanents|
    ensures Ready(RunTasks(st, i, j).0) && Evolves(st, RunTasks(st, i, j).0)
    decreases j - i
  {
    if i < j {
      PermanentInv(st, i);
      var r := RunPermanent(st, i);
      if !r.1 {
        RunTasksInv(r.0, i + 1, j);
        EvolvesTrans(st, r.0, RunTasks(r.0, i + 1, j).0);
      }
    }
  }

  /** A pass runs the permanent tasks up to any `j`, then the others. */
  lemma {:induction false} PermanentsSplit(st: State, i: nat, j: nat)
    requires Ready(st) && i <= j <= |st.permanents|
    ensures var r := RunTasks(st, i, j);
            && Ready(r.0) && j <= |r.0.permanents|
            && RunPermanents(st, i) == if r.1 then r else RunPermanents(r.0, j)
    decreases j - i
  {
    RunTasksInv(st, i, j);
    if i < j {
      PermanentInv(st, i);
      var r := RunPermanent(st, i);
      if !r.1 { PermanentsSplit(r.0, i + 1, j); }
    }
  }

  lemma {:induction false} TasksSnoc(st: State, i: nat, j: nat)
    requires Ready(st) && i <= j < |st.permanents|
    ensures var r := RunTasks(st, i, j);
            && Ready(r.0) && j < |r.0.permanents| && r.0.permanents[j] == st.permanents[j]
            && RunTasks(st, i, j + 1) == if r.1 then r else RunPermanent(r.0, j)
    decreases j - i
  {
    RunTasksInv(st, i, j);
    PermanentInv(st, i);
    var r := RunPermanent(st, i);
    if i < j && !r.1 { TasksSnoc(r.0, i + 1, j); }
  }

  /** Bounded latency.  Permanent task number `j` of a pass being `promise_task`: once it has run, the
      handlers of all promises that exist have run exactly once if their promise has settled their way, at
      whatever earlier time, and not at all if not. */
  lemma HandlersRunInNextPass(st: State, j: nat, c: nat)
    requires Ready(st) && j < |st.permanents| && st.permanents[j] == RunPromiseTask && !RunTasks(st, 0, j + 1).1
    requires var st' := RunTasks(st, 0, j + 1).0;
             c < |st'.cells| && st'.cells[c].def.Chained?
    ensures var st', d := RunTasks(st, 0, j + 1).0, RunTasks(st, 0, j + 1).0.cells[c].def;
            && st'.queue == [] && d.parent < c
            && if !st'.cells[d.parent].fate.Pending? && Way(st'.cells[d.parent].fate) == d.side
               then Entry(d.parent, c, st'.cells[d.parent].fate) in st'.log && Runs(st'.log, c) == 1
               else Runs(st'.log, c) == 0
  {
    DrainedAtTask(st, j);
    LoggedWhenDrained(RunTasks(st, 0, j + 1).0, c);
  }

  lemma DrainedAtTask(st: State, j: nat)
    requires Ready(st) && j < |st.permanents| && st.permanents[j] == RunPromiseTask && !RunTasks(st, 0, j + 1).1
    ensures Ready(RunTasks(st, 0, j + 1).0) && RunTasks(st, 0, j + 1).0.queue == []
  {
    TasksSnoc(st, 0, j);
    DrainInv(RunTasks(st, 0, j).0);
  }

  // -------------------------------------------------------------------------------------------
  // Outcomes
  // -------------------------------------------------------------------------------------------

  lemma TaskSolving(st: State, i: nat)
    requires Ready(st) && i < |st.permanents| && Solving(st, {})
    ensures Solving(RunPermanent(st, i).0, {})
  {
    PermanentOk(st, i);
    match st.permanents[i]
    case RunPromiseTask => DrainSolving(st);
    case RunCode(env, body) => ExecSolving(body, env, -1, st, {}, -1);
  }

  lemma {:induction false} RunTasksSolving(st: State, i: nat, j: nat)
    requires Ready(st) && i <= j <= |st.permanents| && Solving(st, {})
    ensures Solving(RunTasks(st, i, j).0, {})
    decreases j - i
  {
    if i < j {
      PermanentInv(st, i);
      TaskSolving(st, i);
      var r := RunPermanent(st, i);
      if !r.1 { RunTasksSolving(r.0, i + 1, j); }
    }
  }

  lemma {:induction false} PermanentsSolving(st: State, i: nat)
    requires Ready(st) && i <= |st.permanents| && Solving(st, {})
    ensures Solving(RunPermanents(st, i).0, {})
    decreases RestPermanents(st, i)
  {
    if i < |st.permanents| {
      PermanentTurn(st, i);
      TaskSolving(st, i);
      if !RunPermanent(st, i).1 { PermanentsSolving(RunPermanent(st, i).0, i + 1); }
    }
  }

  lemma {:induction false} OneshotsSolving(st: State, i: nat)
    requires Ready(st) && i <= |st.oneshots| && Solving(st, {})
    ensures Solving(RunOneshots(st, i).st, {})
    decreases Rest(st, i)
  {
    if i < |st.oneshots| {
      var h, r := st.oneshots[i], RunOneshot(st, i);
      OneshotInv(st, i);
      OneshotOk(st, i);
      ExecSolving(h.body, h.env, -1, st, {}, -1);
      if !r.1 { OneshotsSolving(r.0, i + 1); }
    }
  }

  lemma ClearedSolving(st: State)
    requires Solving(st, {})
    ensures Solving(st.(oneshots := []), {})
  {
    var st' := st.(oneshots := []);
    assert FateOf(st') == FateOf(st);
    forall c | 0 <= c < |st.cells| && !st.cells[c].fate.Pending? ensures Due(st', c, st.cells[c].fate) {
      assert Due(st, c, st.cells[c].fate);
    }
    forall q, side, i | 0 <= q < |st.cells| && 0 <= i < |st.cells[q].List(side)|
      ensures LinkOk(st', q, st.cells[q].List(side)[i])
    {
      assert LinkOk(st, q, st.cells[q].List(side)[i]);
    }
    forall g | 0 <= g < |st.gens| ensures GenOk(st', g) { assert GenOk(st, g); }
    forall c | 0 <= c < |st.cells| && Waits(st, c) ensures Waits(st', c) {
      if q: nat :| Linked(st, q, c) { assert Linked(st', q, c); }
    }
  }

  /** A pass, whatever its tasks do and however it ends, keeps the promises solving. */
  lemma RunOnceSolving(st: State)
    requires Ready(st) && Solving(st, {})
    ensures Ready(RunOnce(st).st) && Solving(RunOnce(st).st, {})
  {
    RunOnceInv(st);
    RunOnceCases(st);
    PermanentsSolving(st, 0);
    var r := RunPermanents(st, 0);
    if !r.1 {
      OneshotsSolving(r.0, 0);
      if !RunOneshots(r.0, 0).threw { ClearedSolving(RunOneshots(r.0, 0).st); }
    }
  }

  /** Permanent task number `j` of a pass being `promise_task`: once it has run, every promise has come out as
      its code does, and every lawful one has the fate that its equation gives it. */
  lemma OutcomesInPass(st: State, j: nat, c: nat)
    requires Ready(st) && Solving(st, {})
    requires j < |st.permanents| && st.permanents[j] == RunPromiseTask && !RunTasks(st, 0, j + 1).1
    requires c < |RunTasks(st, 0, j + 1).0.cells| && Single(RunTasks(st, 0, j + 1).0.cells[c])
    ensures var st' := RunTasks(st, 0, j + 1).0;
            && ComesTo(st'.cells, FateOf(st'), c, st'.cells[c].fate)
            && (Lawful(st'.cells[c]) ==> st'.cells[c].fate == CellRhs(st'.cells[c], FateOf(st')))
  {
    DrainedAtTask(st, j);
    RunTasksSolving(st, 0, j + 1);
    var st' := RunTasks(st, 0, j + 1).0;
    DrainedOutcome(st', c);
    if Lawful(st'.cells[c]) { DrainedEquation(st', c); }
  }
}
