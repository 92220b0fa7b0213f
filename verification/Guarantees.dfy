/** What the promise engine promises its users, over whole runs. */
module Guarantees {
  import opened Scripts
  import opened Promises
  import opened Invariant
  import opened Weights
  import opened Draining
  import opened Equations
  import opened Settling
  import opened FixedPoints
  import opened Solutions

  /** A thread after `promise_init`. */
  const INIT := State([], [], [], [RunPromiseTask], [], [])

  /** The program runs some code outside any callback, or the task loop runs `promise_task`. */
  datatype Event = Code(s: Script, env: Env) | PromiseTask

  ghost predicate Enabled(e: Event, st: State) {
    e.Code? ==> EnvOk(e.env, |st.cells|) && Scoped(e.s, |e.env.proms|, false)
  }

  function Apply(e: Event, st: State): State
    requires Ready(st) && Enabled(e, st)
  {
    match e
    case Code(s, env) => Exec(s, env, -1, st).0
    case PromiseTask => Drain(st)
  }

  /** The history that no later event rewrites. */
  ghost predicate Remembers(a: State, b: State) {
    && |a.cells| <= |b.cells| && a.log <= b.log
    && (forall p :: 0 <= p < |a.cells| ==>
          && b.cells[p].def == a.cells[p].def
          && (a.cells[p].fate.Pending? || b.cells[p].fate == a.cells[p].fate))
  }

  lemma ApplyInv(e: Event, st: State)
    requires Ready(st) && Enabled(e, st)
    ensures Ready(Apply(e, st)) && Evolves(st, Apply(e, st))
    ensures e.Code? ==> Apply(e, st).log == st.log
  {
    match e
    case Code(s, env) => ExecInv(s, env, -1, st);
    case PromiseTask => DrainInv(st);
  }

  ghost predicate Valid(es: seq<Event>)
    decreases |es|, 0
  {
    es == [] || (Valid(es[..|es| - 1]) && Enabled(es[|es| - 1], After(es[..|es| - 1])))
  }

  /** The state after a sequence of events, in any interleaving of code and drains. */
  ghost function After(es: seq<Event>): (st: State)
    requires Valid(es)
    ensures Ready(st)
    decreases |es|, 1
  {
    if es == [] then INIT
    else
      var st := After(es[..|es| - 1]);
      ApplyInv(es[|es| - 1], st);
      Apply(es[|es| - 1], st)
  }

  // -------------------------------------------------------------------------------------------
  // Handlers run once, in order, and only for the outcome they were registered for
  // -------------------------------------------------------------------------------------------

  /** How often the handler behind promise `c` has run. */
  function Runs(log: seq<Entry>, c: nat): nat {
    if log == [] then 0 else (if log[0].child == c then 1 else 0) + Runs(log[1..], c)
  }

  lemma {:induction false} RunsAt(log: seq<Entry>, c: nat, i: nat)
    requires i < |log| && log[i].child == c
    requires forall j :: 0 <= j < |log| && log[j].child == c ==> j == i
    ensures Runs(log, c) == 1
  {
    if i == 0 {
      assert forall j :: 0 <= j < |log[1..]| ==> log[1..][j] == log[j + 1];
      RunsNone(log[1..], c);
    } else {
      assert forall j :: 0 <= j < |log[1..]| ==> log[1..][j] == log[j + 1];
      RunsAt(log[1..], c, i - 1);
    }
  }

  lemma {:induction false} RunsNone(log: seq<Entry>, c: nat)
    requires forall j :: 0 <= j < |log| ==> log[j].child != c
    ensures Runs(log, c) == 0
  {
    if log != [] { RunsNone(log[1..], c); }
  }

  /** Two entries for one child are one entry. */
  lemma OneEntry(st: State, i: nat, j: nat)
    requires LogInv(st) && i < |st.log| && j < |st.log| && st.log[i].child == st.log[j].child
    ensures i == j
  {
    assert EntryOk(st, st.log[i]) && EntryOk(st, st.log[j]);
  }

  lemma LoggedOnce(st: State, i: nat)
    requires LogInv(st) && i < |st.log|
    ensures Runs(st.log, st.log[i].child) == 1
  {
    forall j | 0 <= j < |st.log| && st.log[j].child == st.log[i].child ensures j == i { OneEntry(st, i, j); }
    RunsAt(st.log, st.log[i].child, i);
  }

  /** With the queue empty, a handler has left its list for the log if its promise settled its way, and
      has not run otherwise. */
  lemma LoggedWhenDrained(st: State, c: nat)
    requires QueueInv(st) && AccountInv(st) && LogInv(st) && st.queue == []
    requires c < |st.cells| && st.cells[c].def.Chained?
    ensures var d := st.cells[c].def;
            && d.parent < c
            && if !st.cells[d.parent].fate.Pending? && Way(st.cells[d.parent].fate) == d.side
               then Entry(d.parent, c, st.cells[d.parent].fate) in st.log && Runs(st.log, c) == 1
               else Runs(st.log, c) == 0
  {
    var d := st.cells[c].def;
    assert Accounted(st, c);
    if !st.cells[d.parent].fate.Pending? && Way(st.cells[d.parent].fate) == d.side {
      assert !st.cells[d.parent].pendingCallback;
      var e := Entry(d.parent, c, st.cells[d.parent].fate);
      assert e in st.log;
      var i :| 0 <= i < |st.log| && st.log[i] == e;
      LoggedOnce(st, i);
    } else {
      forall j | 0 <= j < |st.log| ensures st.log[j].child != c { assert EntryOk(st, st.log[j]); }
      RunsNone(st.log, c);
    }
  }

  /** In every state of every run a handler has run at most once; once, with the fate of its promise,
      only if that promise settled its way. */
  lemma AtMostOnce(es: seq<Event>, c: nat)
    requires Valid(es) && c < |After(es).cells|
    ensures Runs(After(es).log, c) <= 1
    ensures Runs(After(es).log, c) == 1 ==>
              var d := After(es).cells[c].def;
              && d.Chained? && d.parent < c
              && !After(es).cells[d.parent].fate.Pending? && Way(After(es).cells[d.parent].fate) == d.side
              && Entry(d.parent, c, After(es).cells[d.parent].fate) in After(es).log
  {
    var st := After(es);
    if i :| 0 <= i < |st.log| && st.log[i].child == c {
      LoggedOnce(st, i);
      assert EntryOk(st, st.log[i]) && Accounted(st, c);
    } else {
      RunsNone(st.log, c);
    }
  }

  /** After `promise_task` the handlers that have run are exactly those whose promise settled their way,
      each once and with the settled value or error. */
  lemma ExactlyOnceAfterTask(es: seq<Event>, c: nat)
    requires Valid(es + [PromiseTask]) && c < |After(es + [PromiseTask]).cells|
    requires After(es + [PromiseTask]).cells[c].def.Chained?
    ensures var st, d := After(es + [PromiseTask]), After(es + [PromiseTask]).cells[c].def;
            && d.parent < c
            && Runs(st.log, c) ==
                 (if Takes(st.cells[d.parent].fate, d.side) && !st.cells[d.parent].fate.Pending? then 1 else 0)
            && (Runs(st.log, c) == 1 <==>
                  !st.cells[d.parent].fate.Pending? && Entry(d.parent, c, st.cells[d.parent].fate) in st.log)
  {
    TaskEmptiesQueue(es);
    LoggedWhenDrained(After(es + [PromiseTask]), c);
    AtMostOnce(es + [PromiseTask], c);
  }

  lemma TaskEmptiesQueue(es: seq<Event>)
    requires Valid(es + [PromiseTask])
    ensures Valid(es) && After(es + [PromiseTask]) == Drain(After(es)) && After(es + [PromiseTask]).queue == []
  {
    assert (es + [PromiseTask])[..|es|] == es;
    DrainInv(After(es));
  }

  /** No callback is ever stranded: once `promise_task` completes, the queue is empty, no promise is
      flagged, and every wrapper in the system sits on a pending promise. */
  lemma NothingStranded(es: seq<Event>, p: nat)
    requires Valid(es + [PromiseTask]) && p < |After(es + [PromiseTask]).cells|
    ensures var st := After(es + [PromiseTask]);
            && st.queue == [] && !st.cells[p].pendingCallback
            && (st.cells[p].fulfilled + st.cells[p].rejected != [] ==> st.cells[p].fate.Pending?)
  {
    TaskEmptiesQueue(es);
  }

  /** The handlers of one promise run in the order in which they were registered, all with the fate of
      that promise; those registered while it calls back included. */
  lemma RegistrationOrder(es: seq<Event>, i: nat, j: nat)
    requires Valid(es) && i < j < |After(es).log| && After(es).log[i].promise == After(es).log[j].promise
    ensures var log := After(es).log;
            log[i].child < log[j].child && log[i].arg == log[j].arg == After(es).cells[log[i].promise].fate
  {
    assert EntryOk(After(es), After(es).log[i]) && EntryOk(After(es), After(es).log[j]);
  }

  /** No promise runs both handlers for its value and handlers for its error. */
  lemma NeverBothWays(es: seq<Event>, i: nat, j: nat)
    requires Valid(es) && i < |After(es).log| && j < |After(es).log|
    requires After(es).log[i].promise == After(es).log[j].promise
    ensures var st := After(es);
            && st.log[i].child < |st.cells| && st.log[j].child < |st.cells|
            && st.cells[st.log[i].child].def.Chained? && st.cells[st.log[j].child].def.Chained?
            && st.cells[st.log[i].child].def.side == st.cells[st.log[j].child].def.side
  {
    assert EntryOk(After(es), After(es).log[i]) && EntryOk(After(es), After(es).log[j]);
  }

  lemma RemembersTrans(a: State, b: State, c: State)
    requires Remembers(a, b) && Remembers(b, c)
    ensures Remembers(a, c)
  {
  }

  /** First outcome forever: whatever happens later, a settled promise keeps its fate, and what has run
      has run; handlers run in `promise_task` and nowhere else. */
  lemma {:induction false} FirstOutcomeForever(es: seq<Event>, more: seq<Event>)
    requires Valid(es + more)
    ensures Valid(es) && Remembers(After(es), After(es + more))
    ensures (forall i :: 0 <= i < |more| ==> more[i].Code?) ==> After(es + more).log == After(es).log
    decreases |more|
  {
    if more == [] {
      assert es + more == es;
    } else {
      var front := more[..|more| - 1];
      assert (es + more)[..|es + more| - 1] == es + front;
      FirstOutcomeForever(es, front);
      ApplyInv(more[|more| - 1], After(es + front));
      RemembersTrans(After(es), After(es + front), After(es + more));
    }
  }

  // -------------------------------------------------------------------------------------------
  // Suspended async functions
  // -------------------------------------------------------------------------------------------

  /** Wrapper `j` of list `side` of `p` can still fire and would resume generator `g`. */
  ghost predicate CanResume(st: State, g: nat, p: nat, side: Side, j: nat) {
    && p < |st.cells| && Fireable(st, p, side) && j < |st.cells[p].List(side)|
    && st.cells[p].List(side)[j].Handle? && st.cells[p].List(side)[j].handler == Resume(g)
  }

  function ArmedChild(s: GenStatus, side: Side): nat
    requires s.SUSPENDED?
  {
    if side.OnValue? then s.nextChild else s.throwChild
  }

  /** Whatever can resume a generator was armed by its current await, on the promise it awaits. */
  lemma ResumerIsArmed(st: State, g: nat, p: nat, side: Side, j: nat)
    requires Inv(st) && g < |st.gens| && CanResume(st, g, p, side, j)
    ensures var s := st.gens[g].status;
            s.SUSPENDED? && p == s.awaited && st.cells[p].List(side)[j].child == ArmedChild(s, side)
  {
    assert ArmedInv(st, p, side) && ArmedOk(st, p, side, st.cells[p].List(side)[j]);
  }

  /** And something can, whichever way that promise may still go. */
  lemma ArmedIsThere(st: State, g: nat, side: Side) returns (j: nat)
    requires Inv(st) && g < |st.gens| && st.gens[g].status.SUSPENDED?
    ensures st.gens[g].status.awaited < |st.cells|
    ensures Fireable(st, st.gens[g].status.awaited, side) ==> CanResume(st, g, st.gens[g].status.awaited, side, j)
  {
    var s := st.gens[g].status;
    assert SuspendedOk(st, g) && Accounted(st, s.nextChild) && Accounted(st, s.throwChild);
    j := 0;
    if Fireable(st, s.awaited, side) {
      j :| 0 <= j < |st.cells[s.awaited].List(side)|
           && st.cells[s.awaited].List(side)[j] == Handle(Resume(g), ArmedChild(s, side));
    }
  }

  lemma ArmedIsOne(st: State, g: nat, p: nat, side: Side, i: nat, j: nat)
    requires Inv(st) && g < |st.gens| && CanResume(st, g, p, side, i) && CanResume(st, g, p, side, j)
    ensures i == j
  {
    ResumerIsArmed(st, g, p, side, i);
    ResumerIsArmed(st, g, p, side, j);
    assert ListOk(st, p, side);
  }

  /** Generator `g` can be resumed only while it is suspended, from the promise that it awaits, and by at most
      one wrapper of either list. */
  ghost predicate OneArming(st: State, g: nat)
    requires g < |st.gens|
  {
    var s := st.gens[g].status;
    && (forall p, side, j :: CanResume(st, g, p, side, j) ==> s.SUSPENDED? && p == s.awaited)
    && (forall p, side, i: nat, j: nat :: CanResume(st, g, p, side, i) && CanResume(st, g, p, side, j) ==> i == j)
  }

  lemma ArmedOnce(st: State, g: nat)
    requires Inv(st) && g < |st.gens|
    ensures OneArming(st, g)
  {
    forall p, side, j | CanResume(st, g, p, side, j)
      ensures st.gens[g].status.SUSPENDED? && p == st.gens[g].status.awaited
    {
      ResumerIsArmed(st, g, p, side, j);
    }
    forall p, side, i: nat, j: nat | CanResume(st, g, p, side, i) && CanResume(st, g, p, side, j) ensures i == j {
      ArmedIsOne(st, g, p, side, i, j);
    }
  }

  /** A suspended async function can be resumed by exactly one wrapper for each way its promise can
      still go, all of them on the promise it awaits; one that is not suspended cannot be resumed. */
  lemma SuspendedArmedOnce(es: seq<Event>, g: nat)
    requires Valid(es) && g < |After(es).gens|
    ensures var st, s := After(es), After(es).gens[g].status;
            && OneArming(st, g)
            && (s.SUSPENDED? ==> s.awaited < |st.cells| && forall side :: Fireable(st, s.awaited, side) ==>
                  exists j :: CanResume(st, g, s.awaited, side, j))
  {
    var st, s := After(es), After(es).gens[g].status;
    ArmedOnce(st, g);
    if s.SUSPENDED? {
      var _ := ArmedIsThere(st, g, OnValue);
      forall side ensures Fireable(st, s.awaited, side) ==> exists j :: CanResume(st, g, s.awaited, side, j)
      {
        var j := ArmedIsThere(st, g, side);
      }
    }
  }

  /** An await of `p` through the context of generator `g`: both callbacks are registered, and then the yield
      suspends the generator, or refuses because it is not RUNNING. */
  function AwaitThrough(st: State, g: nat, p: nat, env: Env, kv: Script, ke: Script): (State, Outcome)
    requires g < |st.gens| && p < |st.cells|
  {
    if st.gens[g].status.RUNNING? then (Arm(st, g, p, env, kv, ke), Suspended)
    else (Armed(st, g, p), Threw(NotRunning))
  }

  /** A context that has been copied out of its async function can be used after the function was suspended or
      has ended.  Such an await throws, but its callbacks stay, on whatever promise it was: it is exactly the
      awaits of a RUNNING generator that leave the generator with one arming. */
  lemma AwaitArmsOnceIff(st: State, g: nat, p: nat, env: Env, kv: Script, ke: Script)
    requires Inv(st) && g < |st.gens| && p < |st.cells|
    requires EnvOk(env, |st.cells|) && Scoped(kv, |env.proms|, true) && Scoped(ke, |env.proms|, true)
    ensures var r := AwaitThrough(st, g, p, env, kv, ke);
            && |r.0.gens| == |st.gens|
            && (OneArming(r.0, g) <==> st.gens[g].status.RUNNING?)
            && (OneArming(r.0, g) <==> !r.1.Threw?)
            && (r.1.Threw? ==> r.1.error == NotRunning)
  {
    if st.gens[g].status.RUNNING? {
      ArmInv(st, g, p, env, kv, ke);
      ArmedOnce(Arm(st, g, p, env, kv, ke), g);
    } else {
      StrayArming(st, g, p);
    }
  }

  /** The callback that a stray await leaves on `p`, behind the one that is there if `p` is awaited already. */
  lemma StrayArming(st: State, g: nat, p: nat)
    requires Inv(st) && g < |st.gens| && p < |st.cells| && !st.gens[g].status.RUNNING?
    ensures |Armed(st, g, p).gens| == |st.gens| && !OneArming(Armed(st, g, p), g)
  {
    var st', s := Armed(st, g, p), st.gens[g].status;
    var side := if st.cells[p].fate.Pending? then OnValue else Way(st.cells[p].fate);
    var n := |st.cells[p].List(side)|;
    StrayLists(st, g, p, side);
    assert CanResume(st', g, p, side, n);
    if s.SUSPENDED? && s.awaited == p {
      var j := ArmedIsThere(st, g, side);
      assert CanResume(st', g, p, side, j);
    }
  }

  lemma StrayLists(st: State, g: nat, p: nat, side: Side)
    requires p < |st.cells| && Fireable(st, p, side)
    ensures var st', ws := Armed(st, g, p), st.cells[p].List(side);
            && st'.gens == st.gens && |st.cells| <= |st'.cells| && st'.cells[p].fate == st.cells[p].fate
            && |st'.cells[p].List(side)| == |ws| + 1 && ws <= st'.cells[p].List(side)
            && st'.cells[p].List(side)[|ws|].Handle? && st'.cells[p].List(side)[|ws|].handler == Resume(g)
  {
    RegisterLists(st, OnValue, p, Resume(g));
    RegisterLists(Register(st, OnValue, p, Resume(g)), OnError, p, Resume(g));
  }

  /** What such a callback does when it runs: it leaves a function that is done, or one that is running, as it is,
      and gives the promise that `then`/`_catch` returned a blank value, the awaited error back, or
      ALREADY_RUNNING. */
  lemma StrayCallback(st: State, g: nat, arg: Settled, was: GenStatus)
    requires g < |st.gens| && st.gens[g].owner < |st.cells| && !was.SUSPENDED?
    ensures var r := RunHandler(st, Resume(g), was, arg);
            && r.0 == st
            && r.1 == if was.RUNNING? then Threw(AlreadyRunning)
                      else match arg case Resolved(_) => Returned(Blank) case Rejected(e) => Threw(e)
  {
  }

  /** Of the two callbacks that one await arms on `p`, at most one ever runs. */
  lemma AwaitResumesOnce(es: seq<Event>, g: nat, p: nat, c: nat, d: nat)
    requires Valid(es) && c < |After(es).cells| && d < |After(es).cells|
    requires After(es).cells[c].def == Chained(OnValue, p, Resume(g))
    requires After(es).cells[d].def == Chained(OnError, p, Resume(g))
    ensures Runs(After(es).log, c) + Runs(After(es).log, d) <= 1
  {
    AtMostOnce(es, c);
    AtMostOnce(es, d);
  }

  // -------------------------------------------------------------------------------------------
  // Outcomes do not depend on the interleaving
  // -------------------------------------------------------------------------------------------

  /** Whatever code a run consists of, it keeps the promises solving. */
  lemma {:induction false} RunSolving(es: seq<Event>)
    requires Valid(es)
    ensures Solving(After(es), {})
  {
    if es != [] {
      RunSolving(es[..|es| - 1]);
      ApplySolving(es[|es| - 1], After(es[..|es| - 1]));
    } else {
      assert Grounded(INIT);
    }
  }

  lemma ApplySolving(e: Event, st: State)
    requires Ready(st) && Enabled(e, st) && Solving(st, {})
    ensures Solving(Apply(e, st), {})
  {
    match e
    case Code(s, env) => ExecSolving(s, env, -1, st, {}, -1);
    case PromiseTask => DrainSolving(st);
  }

  lemma TaskDrains(es: seq<Event>)
    requires Valid(es + [PromiseTask])
    ensures Drained(After(es + [PromiseTask]))
  {
    TaskEmptiesQueue(es);
    RunSolving(es + [PromiseTask]);
  }

  /** In any run of any code: after `promise_task` every promise has come out as its code does.  It ended in
      that outcome, step by step as in direct style, the promises it made on its way being those of the
      run; or it is halted.  Only roots on which several calls were made are left aside. */
  lemma OutcomeIsCourse(es: seq<Event>, c: nat)
    requires Valid(es + [PromiseTask]) && c < |After(es + [PromiseTask]).cells|
    requires Single(After(es + [PromiseTask]).cells[c])
    ensures var st := After(es + [PromiseTask]);
            ComesTo(st.cells, FateOf(st), c, st.cells[c].fate)
  {
    TaskDrains(es);
    DrainedOutcome(After(es + [PromiseTask]), c);
  }

  /** In any run of any code: after `promise_task` each lawful promise - a root that was settled or redirected
      at most once, a `then`/`_catch` whose handler makes no root, an async function whose body makes none -
      has the fate that its equation gives it. */
  lemma OutcomeIsEquation(es: seq<Event>, c: nat)
    requires Valid(es + [PromiseTask]) && c < |After(es + [PromiseTask]).cells|
    requires Lawful(After(es + [PromiseTask]).cells[c])
    ensures var st := After(es + [PromiseTask]);
            st.cells[c].fate == CellRhs(st.cells[c], FateOf(st))
  {
    TaskDrains(es);
    DrainedEquation(After(es + [PromiseTask]), c);
  }

  /** In any state of any run, promises are settled no further than any bound that their code and equations
      respect: nothing is settled without a cause. */
  lemma NothingFromNothing(es: seq<Event>, A: set<nat>, G: Fates, c: nat)
    requires Valid(es) && Bounded(After(es).cells, A, G) && c in A
    ensures c < |After(es).cells| && Leq(After(es).cells[c].fate, G(c))
  {
    RunSolving(es);
  }

  /** In any state of any run: the promise of a `then`/`_catch` is settled only if its parent settled that
      way, whatever the handler does. */
  lemma ChildNeedsParent(es: seq<Event>, c: nat)
    requires Valid(es) && c < |After(es).cells| && After(es).cells[c].def.Chained?
    ensures var st, d := After(es), After(es).cells[c].def;
            && d.parent < c
            && (!st.cells[c].fate.Pending? ==>
                  !st.cells[d.parent].fate.Pending? && Way(st.cells[d.parent].fate) == d.side)
  {
    RunSolving(es);
    assert Accounted(After(es), c);
    assert !After(es).cells[c].fate.Pending? ==> Due(After(es), c, After(es).cells[c].fate);
  }

  /** Registrations, calls of async functions, settlements and drains may come in any order: if every
      promise is lawful, the fates after a drain are the least fixed point of the equations ... */
  lemma OutcomesAreLeastFixedPoint(es: seq<Event>)
    requires Valid(es + [PromiseTask]) && AllLawful(After(es + [PromiseTask]).cells)
    ensures LeastFixedPoint(After(es + [PromiseTask]).cells, FateOf(After(es + [PromiseTask])))
  {
    TaskDrains(es);
    DrainedIsLeastFixedPoint(After(es + [PromiseTask]));
  }

  /** ... and so the solution that evaluating the equations round by round computes. */
  lemma OutcomesAreLeastSolution(es: seq<Event>, p: nat)
    requires Valid(es + [PromiseTask]) && AllLawful(After(es + [PromiseTask]).cells)
    requires p < |After(es + [PromiseTask]).cells|
    ensures var st := After(es + [PromiseTask]);
            st.cells[p].fate == Solve(st.cells)[p]
  {
    var st := After(es + [PromiseTask]);
    OutcomesAreLeastFixedPoint(es);
    LeastIsUnique(st.cells, FateOf(st), p);
    assert FateOf(st)(p) == st.cells[p].fate;
  }
}
