/** What a pass of the task loop does to the promises: it is a run in the sense of `Guarantees`, each task being one
    event that runs the task's code in the environment that the task was pushed with. */
module Passes {
  import opened Scripts
  import opened Promises
  import opened Invariant
  import opened Draining
  import opened Guarantees
  import opened TaskLoops

  /** `events`, one after the other, lead from `a` to `b`. */
  ghost predicate LeadsTo(a: State, events: seq<Event>, b: State)
    decreases |events|
  {
    if events == [] then b == a
    else Ready(a) && Enabled(events[0], a) && LeadsTo(Apply(events[0], a), events[1..], b)
  }

  function HandlerEvents(hs: seq<Handler>): (es: seq<Event>)
    requires forall i :: 0 <= i < |hs| ==> hs[i].Closure?
    ensures |es| == |hs|
  {
    seq(|hs|, i requires 0 <= i < |hs| => Code(hs[i].body, hs[i].env))
  }

  function TaskEvent(t: Task): Event {
    match t
    case RunPromiseTask => PromiseTask
    case RunCode(env, body) => Code(body, env)
  }

  function TaskEvents(ts: seq<Task>): (es: seq<Event>)
    ensures |es| == |ts|
  {
    seq(|ts|, i requires 0 <= i < |ts| => TaskEvent(ts[i]))
  }

  lemma LeadsToCons(a: State, e: Event, b: State, fs: seq<Event>, es: seq<Event>, c: State)
    requires Ready(a) && Enabled(e, a) && b == Apply(e, a) && LeadsTo(b, fs, c) && es == [e] + fs
    ensures LeadsTo(a, es, c)
  {
    assert es[1..] == fs;
  }

  lemma {:induction false} LeadsToConcat(a: State, es: seq<Event>, b: State, fs: seq<Event>, c: State)
    requires LeadsTo(a, es, b) && LeadsTo(b, fs, c)
    ensures LeadsTo(a, es + fs, c)
    decreases |es|
  {
    if es == [] {
      assert es + fs == fs;
    } else {
      assert (es + fs)[1..] == es[1..] + fs;
      LeadsToConcat(Apply(es[0], a), es[1..], b, fs, c);
    }
  }

  // -------------------------------------------------------------------------------------------
  // The two loops
  // -------------------------------------------------------------------------------------------

  /** The oneshots that a pass has run are user code, and running them one by one, each in its own environment, leads
      to the state that the pass leaves. */
  ghost predicate RunsOneshots(st: State, p: Pass) {
    (forall i :: 0 <= i < |p.ran| ==> p.ran[i].Closure?) && LeadsTo(st, HandlerEvents(p.ran), p.st)
  }

  lemma {:induction false} OneshotsAreEvents(st: State, i: nat)
    requires Ready(st) && i <= |st.oneshots|
    ensures RunsOneshots(st, RunOneshots(st, i))
    decreases Rest(st, i)
  {
    if i < |st.oneshots| {
      var h, r := st.oneshots[i], RunOneshot(st, i);
      OneshotOk(st, i);
      OneshotInv(st, i);
      if r.1 {
        OneEvent(st, h, r.0);
      } else {
        OneshotsAreEvents(r.0, i + 1);
        FirstEvent(st, h, r.0, RunOneshots(r.0, i + 1));
      }
    }
  }

  lemma OneEvent(st: State, h: Handler, st': State)
    requires Ready(st) && h.Closure? && Enabled(Code(h.body, h.env), st) && st' == Apply(Code(h.body, h.env), st)
    ensures RunsOneshots(st, Pass(st', [h], true))
  {
    assert HandlerEvents([h]) == [Code(h.body, h.env)] + [];
    LeadsToCons(st, Code(h.body, h.env), st', [], HandlerEvents([h]), st');
  }

  lemma FirstEvent(st: State, h: Handler, st': State, q: Pass)
    requires Ready(st) && h.Closure? && Enabled(Code(h.body, h.env), st) && st' == Apply(Code(h.body, h.env), st)
    requires RunsOneshots(st', q)
    ensures RunsOneshots(st, Pass(q.st, [h] + q.ran, q.threw))
  {
    assert HandlerEvents([h] + q.ran) == [Code(h.body, h.env)] + HandlerEvents(q.ran);
    LeadsToCons(st, Code(h.body, h.env), st', HandlerEvents(q.ran), HandlerEvents([h] + q.ran), q.st);
  }

  lemma PermanentIsEvent(st: State, i: nat)
    requires Ready(st) && i < |st.permanents|
    ensures Enabled(TaskEvent(st.permanents[i]), st)
    ensures RunPermanent(st, i).0 == Apply(TaskEvent(st.permanents[i]), st)
  {
    PermanentOk(st, i);
  }

  lemma TaskEventsCons(ts: seq<Task>, i: nat, n: nat)
    requires i < n <= |ts|
    ensures TaskEvents(ts[i..n]) == [TaskEvent(ts[i])] + TaskEvents(ts[i + 1..n])
  {
  }

  /** The tasks `i` to `n` of the queue that the first loop leaves are those that it has run: to the end of the
      queue, or up to the one that throws. */
  ghost predicate RunsPermanents(st: State, i: nat, r: (State, bool), n: nat) {
    && i <= n <= |r.0.permanents| && st.permanents <= r.0.permanents
    && LeadsTo(st, TaskEvents(r.0.permanents[i..n]), r.0)
    && (if r.1 then i < n && TaskRaises(r.0.permanents[n - 1]) else n == |r.0.permanents|)
  }

  lemma {:induction false} PermanentsAreEvents(st: State, i: nat) returns (n: nat)
    requires Ready(st) && i <= |st.permanents|
    ensures RunsPermanents(st, i, RunPermanents(st, i), n)
    decreases RestPermanents(st, i)
  {
    if i == |st.permanents| {
      n := i;
      assert st.permanents[i..n] == [];
    } else {
      PermanentTurn(st, i);
      PermanentIsEvent(st, i);
      if RunPermanent(st, i).1 {
        n := i + 1;
        LastPermanent(st, i);
      } else {
        n := PermanentsAreEvents(RunPermanent(st, i).0, i + 1);
        FirstPermanent(st, i, RunPermanents(st, i), n);
      }
    }
  }

  lemma LastPermanent(st: State, i: nat)
    requires Ready(st) && i < |st.permanents| && RunPermanent(st, i).1
    ensures RunsPermanents(st, i, RunPermanent(st, i), i + 1)
  {
    var st' := RunPermanent(st, i).0;
    PermanentInv(st, i);
    PermanentThrowsIff(st, i);
    PermanentIsEvent(st, i);
    TaskEventsCons(st'.permanents, i, i + 1);
    assert TaskEvents(st'.permanents[i + 1..i + 1]) == [];
    LeadsToCons(st, TaskEvent(st.permanents[i]), st', [], TaskEvents(st'.permanents[i..i + 1]), st');
  }

  lemma FirstPermanent(st: State, i: nat, r: (State, bool), n: nat)
    requires Ready(st) && i < |st.permanents| && RunsPermanents(RunPermanent(st, i).0, i + 1, r, n)
    ensures RunsPermanents(st, i, r, n)
  {
    var st', ts := RunPermanent(st, i).0, r.0.permanents;
    PermanentInv(st, i);
    PermanentIsEvent(st, i);
    assert ts[i] == st'.permanents[i] == st.permanents[i];
    TaskEventsCons(ts, i, n);
    LeadsToCons(st, TaskEvent(ts[i]), st', TaskEvents(ts[i + 1..n]), TaskEvents(ts[i..n]), r.0);
  }

  // -------------------------------------------------------------------------------------------
  // The pass
  // -------------------------------------------------------------------------------------------

  /** A pass is a run: the permanent tasks in order, `promise_task` among them, then the oneshots in order, all in their
      own environments; after a normal end the oneshot queue is cleared, and nothing else is changed. */
  lemma PassIsRun(st: State) returns (n: nat, end: State)
    requires Ready(st)
    ensures var p := RunOnce(st);
            && n <= |p.st.permanents| && (forall i :: 0 <= i < |p.ran| ==> p.ran[i].Closure?)
            && Ready(RunPermanents(st, 0).0) && n <= |RunPermanents(st, 0).0.permanents|
            && LeadsTo(st, TaskEvents(RunPermanents(st, 0).0.permanents[..n]) + HandlerEvents(p.ran), end)
            && p.st == if p.threw then end else end.(oneshots := [])
  {
    var r := RunPermanents(st, 0);
    PermanentsInv(st, 0);
    n := PermanentsAreEvents(st, 0);
    assert r.0.permanents[0..n] == r.0.permanents[..n];
    if r.1 {
      end := r.0;
      assert TaskEvents(r.0.permanents[..n]) + HandlerEvents([]) == TaskEvents(r.0.permanents[..n]);
    } else {
      OneshotsAreEvents(r.0, 0);
      OneshotsEvolve(r.0, 0);
      end := RunOneshots(r.0, 0).st;
      LeadsToConcat(st, TaskEvents(r.0.permanents[..n]), r.0, HandlerEvents(RunOneshots(r.0, 0).ran), end);
    }
  }

  /** So what a pass makes of a state that a run has reached, another run reaches. */
  lemma {:induction false} PassExtendsRun(es: seq<Event>, fs: seq<Event>, end: State)
    requires Valid(es) && LeadsTo(After(es), fs, end)
    ensures Valid(es + fs) && After(es + fs) == end
    decreases |fs|
  {
    if fs == [] {
      assert es + fs == es;
    } else {
      OneMore(es, fs[0]);
      PassExtendsRun(es + [fs[0]], fs[1..], end);
      SameEvents(es, fs);
    }
  }

  lemma SameEvents(es: seq<Event>, fs: seq<Event>)
    requires fs != []
    ensures es + [fs[0]] + fs[1..] == es + fs
  {
  }

  lemma OneMore(es: seq<Event>, e: Event)
    requires Valid(es) && Enabled(e, After(es))
    ensures Valid(es + [e]) && After(es + [e]) == Apply(e, After(es))
  {
    assert (es + [e])[..|es|] == es;
  }

  // -------------------------------------------------------------------------------------------
  // What is pushed
  // -------------------------------------------------------------------------------------------

  /** The handles of a task are those of the code that pushed it, in their order, followed by promises that were made
      after `n`. */
  predicate Captures(task: Env, env: Env, n: nat) {
    env.proms <= task.proms && forall i :: |env.proms| <= i < |task.proms| ==> task.proms[i] >= n
  }

  ghost predicate AllCapture(a: State, b: State, env: Env, n: nat) {
    && a.oneshots <= b.oneshots && a.permanents <= b.permanents
    && (forall i :: |a.oneshots| <= i < |b.oneshots| ==>
          b.oneshots[i].Closure? && Captures(b.oneshots[i].env, env, n))
    && (forall i :: |a.permanents| <= i < |b.permanents| ==>
          b.permanents[i].RunCode? && Captures(b.permanents[i].env, env, n))
  }

  lemma AllCaptureTrans(a: State, b: State, c: State, env: Env, n: nat, env1: Env, m: nat)
    requires AllCapture(a, b, env, n) && AllCapture(b, c, env1, m) && Captures(env1, env, n) && n <= m
    ensures AllCapture(a, c, env, n)
  {
    forall i | |a.oneshots| <= i < |c.oneshots| ensures c.oneshots[i].Closure? && Captures(c.oneshots[i].env, env, n) {
      if i < |b.oneshots| { assert c.oneshots[i] == b.oneshots[i]; }
      else { CapturesTrans(c.oneshots[i].env, env1, m, env, n); }
    }
    forall i | |a.permanents| <= i < |c.permanents|
      ensures c.permanents[i].RunCode? && Captures(c.permanents[i].env, env, n)
    {
      if i < |b.permanents| { assert c.permanents[i] == b.permanents[i]; }
      else { CapturesTrans(c.permanents[i].env, env1, m, env, n); }
    }
  }

  lemma CapturesTrans(task: Env, env1: Env, m: nat, env: Env, n: nat)
    requires Captures(task, env1, m) && Captures(env1, env, n) && n <= m
    ensures Captures(task, env, n)
  {
    forall i | |env.proms| <= i < |task.proms| ensures task.proms[i] >= n {
      if i < |env1.proms| { assert task.proms[i] == env1.proms[i]; }
    }
  }

  lemma LibraryCaptures(op: Op, env: Env, st: State)
    requires ScopedOp(op, |env.proms|) && EnvOk(env, |st.cells|)
    ensures var r := LibraryCall(op, env, st);
            AllCapture(st, r.1, env, |st.cells|) && Captures(r.0, env, |st.cells|)
  {
  }

  /** Every task that code pushes, of either kind, carries the environment of that code: its handles, each at its place,
      and behind them those of promises that the code has made since.  An async body it calls pushes tasks that
      carry the same. */
  lemma {:induction false} PushedCaptures(s: Script, env: Env, cur: int, st: State)
    requires EnvOk(env, |st.cells|) && cur < |st.gens| && Scoped(s, |env.proms|, 0 <= cur)
    ensures AllCapture(st, Exec(s, env, cur, st).0, env, |st.cells|)
    decreases s, 0
  {
    match s
    case If(t, a, b) => PushedCaptures(if t(env.data) then a else b, env, cur, st);
    case Do(op, k) =>
      var r := LibraryCall(op, env, st);
      LibraryCaptures(op, env, st);
      PushedCaptures(k, r.0, cur, r.1);
      AllCaptureTrans(st, r.1, Exec(k, r.0, cur, r.1).0, env, |st.cells|, r.0, |r.1.cells|);
    case Call(body, k) =>
      var st1, env1 := CallAsync(st, env, body), env.WithPromise(|st.cells|);
      CallCaptures(st, env, body);
      PushedCaptures(k, env1, cur, st1);
      AllCaptureTrans(st, st1, Exec(k, env1, cur, st1).0, env, |st.cells|, env1, |st1.cells|);
    case Await(_, _, _) =>
    case Return(_) =>
    case ReturnPromise(_) =>
    case Throw(_) =>
  }

  lemma {:induction false} CallCaptures(st: State, env: Env, body: Script)
    requires EnvOk(env, |st.cells|) && Scoped(body, |env.proms|, true)
    ensures AllCapture(st, CallAsync(st, env, body), env, |st.cells|)
    decreases body, 1
  {
    PushedCaptures(body, env, |st.gens|, StartAsync(st, env, body));
  }
}
