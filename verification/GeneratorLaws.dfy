/** What generators promise: a program of generators behaves as its bodies' trees of interactions do, with no
    stack, no caller, no status and no pointer; re-entry is refused, a finished generator stays as it is,
    and `yield_from` splices one generator into another. */
module GeneratorLaws {
  import opened Scripts
  import opened Generators

  // -------------------------------------------------------------------------------------------
  // Conversations with trees
  // -------------------------------------------------------------------------------------------

  /** Where the conversation with a body stands: not begun, waiting at a yield, passing on what another body
      says, speaking itself, over, or cut off with the process.  `last` is the value it showed last. */
  datatype Talk =
    | Unstarted(b: Body, last: Value)
    | Waiting(onValue: Body, onError: Body, data: Data, last: Value)
    | Delegating(target: nat, k: Body, onError: Body, data: Data, last: Value)
    | Speaking
    | Over(last: Value, error: Option<Error>)
    | Lost

  type World = seq<Talk>

  datatype Input = Send(value: Value) | Inject(error: Error)

  function Worth(t: Talk): nat {
    match t
    case Unstarted(b, _) => Size(b) + 1
    case Waiting(x, y, _, _) => Size(x) + Size(y) + 1
    case Delegating(_, x, y, _, _) => Size(x) + Size(y) + 2
    case _ => 0
  }

  function Worths(w: World): nat {
    if w == [] then 0 else Worth(w[0]) + Worths(w[1..])
  }

  lemma {:induction false} WorthsUpdate(w: World, g: nat, t: Talk)
    requires g < |w|
    ensures Worths(w[g := t]) + Worth(w[g]) == Worths(w) + Worth(t)
  {
    if g == 0 {
      assert w[g := t][1..] == w[1..];
    } else {
      WorthsUpdate(w[1..], g - 1, t);
      assert w[g := t][1..] == w[1..][g - 1 := t];
    }
  }

  /** What an exchange shows: an exception of the body comes out of the call that met it. */
  function Shown(t: Talk): Result {
    match t
    case Over(last, error) => if error.Some? then Err(error.value) else Ok(last)
    case Unstarted(_, last) => Ok(last)
    case Waiting(_, _, _, last) => Ok(last)
    case Delegating(_, _, _, _, last) => Ok(last)
    case Speaking => Err(AlreadyRunning)
    case Lost => Crash
  }

  function Put(w: World, g: nat, t: Talk, bound: nat): (r: World)
    requires g < |w| && Worths(w) + Worth(t) <= bound
    ensures |r| == |w| && Worths(r) <= bound && r == w[g := t]
  {
    WorthsUpdate(w, g, t);
    w[g := t]
  }

  /** `g` speaks: its tree is walked from `b` to the next node that faces the outside.  `last` is what `g`
      showed last, `sent` the value it was resumed with, if it was a value. */
  function Speak(w: World, g: nat, b: Body, d: Data, last: Value, sent: Option<Value>): (r: World)
    requires g < |w|
    ensures |r| == |w| && Worths(r) <= Worths(w) + Size(b)
    decreases Worths(w) + Size(b), 0
  {
    match b
    case Return(e) => Put(w, g, Over(e(d), None), Worths(w) + Size(b))
    case Raise(e) => Put(w, g, Over(last, Some(e(d))), Worths(w) + Size(b))
    case If(t, x, y) => Speak(w, g, if t(d) then x else y, d, last, sent)
    case Yield(e, x, y) => Put(w, g, Waiting(x, y, d, e(d)), Worths(w) + Size(b))
    case Next(t, e, x, y) =>
      if t < |w| then
        var r := Reply(w, t, Send(e(d)));
        Hear(r.0, g, r.1, x, y, d, last, sent, Worths(w))
      else w
    case Throw(t, e, x, y) =>
      if t < |w| then
        var r := Reply(w, t, Inject(e(d)));
        Hear(r.0, g, r.1, x, y, d, last, sent, Worths(w))
      else w
    case YieldFrom(t, x, y) =>
      if t >= |w| then w
      else if w[t].Over? then Speak(w, g, x, d, last, sent)
      else if sent.None? then Put(w, g, Lost, Worths(w) + Size(b))
      else
        var r := Reply(w, t, Send(sent.value));
        match r.1
        case Ok(v) => Put(r.0, g, Delegating(t, x, y, d, v), Worths(w) + Size(b))
        case Err(e) => Speak(r.0, g, y, WithError(d, e), last, sent)
        case Crash => Put(r.0, g, Lost, Worths(w) + Size(b))
  }

  /** `g` goes on with the answer of a call it has made. */
  function Hear(w: World, g: nat, a: Result, x: Body, y: Body, d: Data, last: Value, sent: Option<Value>, bound: nat)
    : (r: World)
    requires g < |w| && Worths(w) <= bound
    ensures |r| == |w| && Worths(r) <= bound + Size(x) + Size(y)
    decreases bound + Size(x) + Size(y), 0
  {
    match a
    case Ok(v) => Speak(w, g, x, WithValue(d, v), last, sent)
    case Err(e) => Speak(w, g, y, WithError(d, e), last, sent)
    case Crash => Put(w, g, Lost, bound)
  }

  /** One exchange with `g`.  A conversation that is over repeats its last value; before it begins and after
      it ends exceptions go back to their sender; while `g` speaks it refuses. */
  function Reply(w: World, g: nat, i: Input): (r: (World, Result))
    requires g < |w|
    ensures |r.0| == |w| && Worths(r.0) <= Worths(w)
    ensures i.Send? && r.1.Ok? && !w[g].Over? ==> Worths(r.0) < Worths(w)
    decreases Worths(w), 1
  {
    match w[g]
    case Speaking => (w, Err(AlreadyRunning))
    case Lost => (w, Crash)
    case Over(last, _) => (w, if i.Send? then Ok(last) else Err(i.error))
    case Unstarted(b, last) =>
      if i.Inject? then (w, Err(i.error))
      else
        WorthsUpdate(w, g, Speaking);
        Turn(Speak(w[g := Speaking], g, b, Data([], []), last, Some(i.value)), g)
    case Waiting(x, y, d, last) =>
      WorthsUpdate(w, g, Speaking);
      if i.Send? then Turn(Speak(w[g := Speaking], g, x, WithValue(d, i.value), last, Some(i.value)), g)
      else Turn(Speak(w[g := Speaking], g, y, WithError(d, i.error), last, None), g)
    case Delegating(t, x, y, d, last) =>
      WorthsUpdate(w, g, Speaking);
      if i.Send? then Turn(Speak(w[g := Speaking], g, YieldFrom(t, x, y), d, last, Some(i.value)), g)
      else Turn(Speak(w[g := Speaking], g, y, WithError(d, i.error), last, None), g)
  }

  function Turn(w: World, g: nat): (World, Result)
    requires g < |w|
  {
    (w, Shown(w[g]))
  }

  function Conversation(w: World, g: nat, ins: seq<Input>): seq<Result>
    requires g < |w|
    decreases |ins|
  {
    if ins == [] then [] else [Reply(w, g, ins[0]).1] + Conversation(Reply(w, g, ins[0]).0, g, ins[1..])
  }

  function AfterTalk(w: World, g: nat, ins: seq<Input>): (r: World)
    requires g < |w|
    ensures |r| == |w|
    decreases |ins|
  {
    if ins == [] then w else AfterTalk(Reply(w, g, ins[0]).0, g, ins[1..])
  }

  // -------------------------------------------------------------------------------------------
  // Generators follow them
  // -------------------------------------------------------------------------------------------

  function Give(st: Store, stack: seq<nat>, g: nat, i: Input): (r: (Store, Result))
    requires Valid(st, stack) && g < |st|
    ensures Valid(r.0, stack) && |r.0| == |st|
  {
    match i
    case Send(v) => SendIn(st, stack, g, v)
    case Inject(e) => ThrowIn(st, stack, g, e)
  }

  /** A program drives generator `g` with `next` and `_throw`. */
  function Drive(st: Store, g: nat, ins: seq<Input>): (r: (Store, seq<Result>))
    requires Valid(st, []) && g < |st|
    ensures Valid(r.0, []) && |r.0| == |st|
    decreases |ins|
  {
    if ins == [] then (st, [])
    else
      var r := Give(st, [], g, ins[0]);
      var q := Drive(r.0, g, ins[1..]);
      (q.0, [r.1] + q.1)
  }

  function TalkOf(g: Gen): Talk {
    match g.status
    case PENDING => Unstarted(g.executor, g.outVal)
    case SUSPENDED =>
      (match g.frame
       case AtYield(x, y, d) => Waiting(x, y, d, g.outVal)
       case InYieldFrom(t, x, y, d) => Delegating(t, x, y, d, g.outVal))
    case RUNNING => Speaking
    case DONE => Over(g.outVal, g.error)
    case CRASHED => Lost
  }

  function Talks(st: Store): (w: World)
    ensures |w| == |st|
  {
    seq(|st|, g requires 0 <= g < |st| => TalkOf(st[g]))
  }

  lemma TalksUpdate(st: Store, g: nat, x: Gen)
    requires g < |st|
    ensures Talks(st[g := x]) == Talks(st)[g := TalkOf(x)]
  {
  }

  lemma StopTalks(st: Store, stack: seq<nat>, g: nat, x: Gen)
    requires Valid(st, stack) && stack != [] && Top(stack) == g && GenOk(x, |st|) && !x.status.RUNNING?
    ensures Talks(Stop(st, stack, g, x)) == Talks(st)[g := TalkOf(x)]
  {
    TalksUpdate(st, g, x);
  }

  /** `g` is running, was resumed with `sent`, and showed `last` last. */
  ghost predicate Holds(st: Store, stack: seq<nat>, g: nat, last: Value, sent: Option<Value>) {
    Valid(st, stack) && stack != [] && Top(stack) == g && g < |st| && st[g].outVal == last && st[g].inVal == sent
      && st[g].error.None?
  }

  lemma HoldsTop(st: Store, stack: seq<nat>, g: nat)
    requires Valid(st, stack) && stack != [] && Top(stack) == g
    ensures g < |st| && Holds(st, stack, g, st[g].outVal, st[g].inVal)
  {
    assert GenOk(st[g], |st|);
  }

  /** A running generator is not touched by those it runs. */
  lemma HoldsAfter(was: Store, st: Store, stack: seq<nat>, g: nat, last: Value, sent: Option<Value>)
    requires Holds(was, stack, g, last, sent) && Valid(st, stack) && Untouched(was, st, stack)
    ensures Holds(st, stack, g, last, sent)
  {
  }

  /** `next` and `_throw` on a generator that can be resumed: what it goes on with, and with which value. */
  lemma SwitchTalks(st: Store, stack: seq<nat>, g: nat, v: Option<Value>)
    requires Valid(st, stack) && g < |st| && (st[g].status.PENDING? || st[g].status.SUSPENDED?)
    ensures var st1 := Enter(st, stack, g, v);
            && Holds(st1, stack + [g], g, st[g].outVal, v)
            && Talks(st1) == Talks(st)[g := Speaking]
            && Total(st1) + Left(st[g]) == Total(st)
  {
    EnterOk(st, stack, g, v);
    TalksUpdate(st, g, Enter(st, stack, g, v)[g]);
    assert GenOk(st[g], |st|);
  }

  lemma AnswerShown(st: Store, g: nat)
    requires g < |st| && !st[g].status.RUNNING? && (st[g].error.Some? ==> st[g].status.DONE?)
    ensures Answer(st[g]) == Shown(Talks(st)[g])
  {
  }

  /** Running a body is walking its tree. */
  lemma {:induction false} RunTalks(st: Store, stack: seq<nat>, g: nat, b: Body, d: Data, last: Value,
                                    sent: Option<Value>)
    requires Holds(st, stack, g, last, sent) && Targets(b, |st|)
    ensures Talks(Run(st, stack, g, b, d)) == Speak(Talks(st), g, b, d, last, sent)
    decreases Total(st) + Size(b), 1
  {
    match b
    case Return(e) => StopTalks(st, stack, g, Finished(st[g], Ok(e(d))));
    case Raise(e) => StopTalks(st, stack, g, Finished(st[g], Err(e(d))));
    case If(t, x, y) => RunTalks(st, stack, g, if t(d) then x else y, d, last, sent);
    case Yield(e, x, y) => StopTalks(st, stack, g, Suspended(st[g], e(d), AtYield(x, y, d)));
    case Next(t, e, x, y) =>
      var r := SendIn(st, stack, t, e(d));
      SendTalks(st, stack, t, e(d));
      HoldsAfter(st, r.0, stack, g, last, sent);
      ContinueTalks(st, r.0, stack, g, r.1, x, y, d, last, sent);
    case Throw(t, e, x, y) =>
      var r := ThrowIn(st, stack, t, e(d));
      ThrowTalks(st, stack, t, e(d));
      HoldsAfter(st, r.0, stack, g, last, sent);
      ContinueTalks(st, r.0, stack, g, r.1, x, y, d, last, sent);
    case YieldFrom(t, x, y) => RunFromTalks(st, stack, g, t, x, y, d, last, sent);
  }

  lemma {:induction false} RunFromTalks(st: Store, stack: seq<nat>, g: nat, t: nat, x: Body, y: Body, d: Data,
                                        last: Value, sent: Option<Value>)
    requires Holds(st, stack, g, last, sent) && Targets(YieldFrom(t, x, y), |st|)
    ensures Talks(Run(st, stack, g, YieldFrom(t, x, y), d))
         == Speak(Talks(st), g, YieldFrom(t, x, y), d, last, sent)
    decreases Total(st) + Size(YieldFrom(t, x, y)), 0
  {
    if st[t].status.DONE? {
      RunTalks(st, stack, g, x, d, last, sent);
    } else if sent.None? {
      StopTalks(st, stack, g, Crashed(st[g]));
    } else {
      var r := SendIn(st, stack, t, sent.value);
      SendTalks(st, stack, t, sent.value);
      HoldsAfter(st, r.0, stack, g, last, sent);
      DelegateTalks(st, r.0, stack, g, r.1, t, x, y, d, last, sent);
    }
  }

  lemma {:induction false} ContinueTalks(was: Store, st: Store, stack: seq<nat>, g: nat, a: Result, x: Body, y: Body,
                                         d: Data, last: Value, sent: Option<Value>)
    requires Holds(st, stack, g, last, sent) && Untouched(was, st, stack) && Total(st) <= Total(was)
    requires Targets(x, |st|) && Targets(y, |st|) && Worths(Talks(st)) <= Worths(Talks(was))
    ensures Talks(Continue(was, st, stack, g, a, x, y, d))
         == Hear(Talks(st), g, a, x, y, d, last, sent, Worths(Talks(was)))
    decreases Total(was) + Size(x) + Size(y), 0
  {
    match a
    case Ok(v) => RunTalks(st, stack, g, x, WithValue(d, v), last, sent);
    case Err(e) => RunTalks(st, stack, g, y, WithError(d, e), last, sent);
    case Crash => StopTalks(st, stack, g, Crashed(st[g]));
  }

  lemma {:induction false} DelegateTalks(was: Store, st: Store, stack: seq<nat>, g: nat, a: Result, t: nat, x: Body,
                                         y: Body, d: Data, last: Value, sent: Option<Value>)
    requires Holds(st, stack, g, last, sent) && Untouched(was, st, stack) && Total(st) <= Total(was)
    requires t < |st| && Targets(x, |st|) && Targets(y, |st|) && (a.Ok? ==> Total(st) < Total(was))
    ensures Talks(Delegate(was, st, stack, g, a, t, x, y, d))
         == match a
            case Ok(v) => Talks(st)[g := Delegating(t, x, y, d, v)]
            case Err(e) => Speak(Talks(st), g, y, WithError(d, e), last, sent)
            case Crash => Talks(st)[g := Lost]
    decreases Total(was) + Size(x) + Size(y), 0
  {
    match a
    case Ok(v) => StopTalks(st, stack, g, Suspended(st[g], v, InYieldFrom(t, x, y, d)));
    case Err(e) => RunTalks(st, stack, g, y, WithError(d, e), last, sent);
    case Crash => StopTalks(st, stack, g, Crashed(st[g]));
  }

  lemma {:induction false} ResumeTalks(st: Store, stack: seq<nat>, g: nat, was: Gen, v: Value)
    requires Holds(st, stack, g, was.outVal, Some(v)) && GenOk(was, |st|)
    requires was.status.PENDING? || was.status.SUSPENDED?
    ensures Talks(Resume(st, stack, g, was))
         == match TalkOf(was)
            case Unstarted(b, last) => Speak(Talks(st), g, b, Data([], []), last, Some(v))
            case Waiting(x, _, d, last) => Speak(Talks(st), g, x, WithValue(d, v), last, Some(v))
            case Delegating(t, x, y, d, last) => Speak(Talks(st), g, YieldFrom(t, x, y), d, last, Some(v))
    decreases Total(st) + Left(was), 0
  {
    if was.status.PENDING? {
      RunTalks(st, stack, g, was.executor, Data([], []), was.outVal, Some(v));
    } else {
      match was.frame
      case AtYield(x, _, d) => RunTalks(st, stack, g, x, WithValue(d, v), was.outVal, Some(v));
      case InYieldFrom(t, x, y, d) => RunTalks(st, stack, g, YieldFrom(t, x, y), d, was.outVal, Some(v));
    }
  }

  lemma {:induction false} SendTalks(st: Store, stack: seq<nat>, g: nat, v: Value)
    requires Valid(st, stack) && g < |st|
    ensures var r := SendIn(st, stack, g, v);
            (Talks(r.0), r.1) == Reply(Talks(st), g, Send(v))
    decreases Total(st), 1
  {
    if st[g].status.PENDING? || st[g].status.SUSPENDED? {
      SwitchTalks(st, stack, g, Some(v));
      assert GenOk(st[g], |st|);
      ResumeTalks(Enter(st, stack, g, Some(v)), stack + [g], g, st[g], v);
      SentAnswer(st, stack, g, v);
    }
  }

  lemma SentAnswer(st: Store, stack: seq<nat>, g: nat, v: Value)
    requires Valid(st, stack) && g < |st| && (st[g].status.PENDING? || st[g].status.SUSPENDED?)
    ensures var r := SendIn(st, stack, g, v);
            r.1 == Shown(Talks(r.0)[g])
  {
    var r := SendIn(st, stack, g, v);
    EnterOk(st, stack, g, Some(v));
    assert GenOk(r.0[g], |r.0|);
    AnswerShown(r.0, g);
  }

  lemma {:induction false} ThrowTalks(st: Store, stack: seq<nat>, g: nat, e: Error)
    requires Valid(st, stack) && g < |st|
    ensures var r := ThrowIn(st, stack, g, e);
            (Talks(r.0), r.1) == Reply(Talks(st), g, Inject(e))
    decreases Total(st), 1
  {
    if st[g].status.SUSPENDED? {
      SwitchTalks(st, stack, g, None);
      ThrownRun(st, stack, g, e);
      RunTalks(Enter(st, stack, g, None), stack + [g], g, st[g].frame.onError, WithError(st[g].frame.data, e),
               st[g].outVal, None);
    }
  }

  lemma ThrownRun(st: Store, stack: seq<nat>, g: nat, e: Error)
    requires Valid(st, stack) && g < |st| && st[g].status.SUSPENDED?
    ensures var st1, r := Enter(st, stack, g, None), ThrowIn(st, stack, g, e);
            && Valid(st1, stack + [g]) && Targets(st[g].frame.onError, |st|)
            && r.0 == Run(st1, stack + [g], g, st[g].frame.onError, WithError(st[g].frame.data, e))
            && r.1 == Shown(Talks(r.0)[g]) && Size(st[g].frame.onError) < Left(st[g])
  {
    EnterOk(st, stack, g, None);
    assert GenOk(st[g], |st|);
    assert (stack + [g])[..|stack|] == stack;
    var r := ThrowIn(st, stack, g, e);
    assert GenOk(r.0[g], |r.0|);
    AnswerShown(r.0, g);
  }

  lemma GiveTalks(st: Store, stack: seq<nat>, g: nat, i: Input)
    requires Valid(st, stack) && g < |st|
    ensures var r := Give(st, stack, g, i);
            (Talks(r.0), r.1) == Reply(Talks(st), g, i)
  {
    match i
    case Send(v) => SendTalks(st, stack, g, v);
    case Inject(e) => ThrowTalks(st, stack, g, e);
  }

  /** Driven by any sequence of `next` and `_throw`, any generator - one that yields, delegates, resumes
      others and is refused by them, to any depth - gives the answers of the conversation with its tree, and
      all generators stand afterwards where their trees stand. */
  lemma {:induction false} FollowsTree(st: Store, g: nat, ins: seq<Input>)
    requires Valid(st, []) && g < |st|
    ensures var r := Drive(st, g, ins);
            r.1 == Conversation(Talks(st), g, ins) && Talks(r.0) == AfterTalk(Talks(st), g, ins)
    decreases |ins|
  {
    if ins != [] {
      GiveTalks(st, [], g, ins[0]);
      FollowsTree(Give(st, [], g, ins[0]).0, g, ins[1..]);
    }
  }

  /** Between calls a stack is allocated exactly for the suspended generators, and an exception is kept
      exactly where a body ended by one. */
  lemma BetweenCalls(st: Store, g: nat, ins: seq<Input>, x: nat)
    requires Valid(st, []) && g < |st| && x < |st|
    ensures var y, t := Drive(st, g, ins).0[x], AfterTalk(Talks(st), g, ins)[x];
            && (y.hasStack <==> t.Waiting? || t.Delegating?) && !y.status.RUNNING?
            && (y.status.DONE? <==> t.Over?) && (y.error.Some? <==> t.Over? && t.error.Some?)
            && (y.error.Some? ==> y.error == t.error)
  {
    FollowsTree(st, g, ins);
    assert GenOk(Drive(st, g, ins).0[x], |st|);
  }

  // -------------------------------------------------------------------------------------------
  // Re-entry, and the end
  // -------------------------------------------------------------------------------------------

  /** The running generators are the call stack; `next` and `_throw` on any of them raise
      ALREADY_RUNNING and change nothing. */
  lemma ReentryRefused(st: Store, stack: seq<nat>, g: nat, i: Input)
    requires Valid(st, stack) && g < |st|
    ensures g in stack <==> st[g].status.RUNNING?
    ensures g in stack ==> Give(st, stack, g, i) == (st, Err(AlreadyRunning))
  {
  }

  /** Whatever else is driven, a finished generator stays as it is, and answers `next` with its last
      value without running code. */
  lemma {:induction false} DoneForever(st: Store, g: nat, ins: seq<Input>, x: nat, v: Value)
    requires Valid(st, []) && g < |st| && x < |st| && st[x].status.DONE?
    ensures Drive(st, g, ins).0[x] == st[x]
    ensures SendIn(Drive(st, g, ins).0, [], x, v) == (Drive(st, g, ins).0, Ok(st[x].outVal))
    decreases |ins|
  {
    if ins != [] {
      DoneForever(Give(st, [], g, ins[0]).0, g, ins[1..], x, v);
    }
  }

  // -------------------------------------------------------------------------------------------
  // One tree alone
  // -------------------------------------------------------------------------------------------

  /** A body that yields, returns and raises, and resumes no other generator. */
  predicate Alone(b: Body) {
    match b
    case If(_, x, y) => Alone(x) && Alone(y)
    case Yield(_, x, y) => Alone(x) && Alone(y)
    case Return(_) => true
    case Raise(_) => true
    case _ => false
  }

  predicate TalkAlone(t: Talk) {
    match t
    case Unstarted(b, _) => Alone(b)
    case Waiting(x, y, _, _) => Alone(x) && Alone(y)
    case Over(_, _) => true
    case _ => false
  }

  function Walk(b: Body, d: Data, last: Value): Talk {
    match b
    case If(t, x, y) => Walk(if t(d) then x else y, d, last)
    case Yield(e, x, y) => Waiting(x, y, d, e(d))
    case Return(e) => Over(e(d), None)
    case Raise(e) => Over(last, Some(e(d)))
    case _ => Lost
  }

  /** One exchange with a body that keeps to itself. */
  function Step(t: Talk, i: Input): (Talk, Result)
    requires TalkAlone(t)
  {
    if i.Send? && t.Over? then (t, Ok(t.last))
    else if i.Inject? && !t.Waiting? then (t, Err(i.error))
    else
      var t' := if t.Unstarted? then Walk(t.b, Data([], []), t.last)
                else if i.Send? then Walk(t.onValue, WithValue(t.data, i.value), t.last)
                else Walk(t.onError, WithError(t.data, i.error), t.last);
      (t', Shown(t'))
  }

  lemma {:induction false} SpeakAlone(w: World, g: nat, b: Body, d: Data, last: Value, sent: Option<Value>)
    requires g < |w| && Alone(b)
    ensures Speak(w, g, b, d, last, sent) == w[g := Walk(b, d, last)] && TalkAlone(Walk(b, d, last))
  {
    match b
    case If(t, x, y) => SpeakAlone(w, g, if t(d) then x else y, d, last, sent);
    case _ =>
  }

  /** It answers the same in any world, and changes nothing but itself. */
  lemma ReplyAlone(w: World, g: nat, i: Input)
    requires g < |w| && TalkAlone(w[g])
    ensures Reply(w, g, i) == (w[g := Step(w[g], i).0], Step(w[g], i).1) && TalkAlone(Step(w[g], i).0)
  {
    var w1 := w[g := Speaking];
    match w[g]
    case Over(_, _) => assert w[g := w[g]] == w;
    case Unstarted(b, last) =>
      if i.Send? {
        SpeakAlone(w1, g, b, Data([], []), last, Some(i.value));
        assert w1[g := Step(w[g], i).0] == w[g := Step(w[g], i).0];
      } else {
        assert w[g := w[g]] == w;
      }
    case Waiting(x, y, d, last) =>
      if i.Send? { SpeakAlone(w1, g, x, WithValue(d, i.value), last, Some(i.value)); }
      else { SpeakAlone(w1, g, y, WithError(d, i.error), last, None); }
      assert w1[g := Step(w[g], i).0] == w[g := Step(w[g], i).0];
  }

  /** The exchanges with a body that keeps to itself, one after the other. */
  function Steps(t: Talk, ins: seq<Input>): (Talk, seq<Result>)
    requires TalkAlone(t)
    decreases |ins|
  {
    if ins == [] then (t, [])
    else
      var r := Step(t, ins[0]);
      StepAlone(t, ins[0]);
      var q := Steps(r.0, ins[1..]);
      (q.0, [r.1] + q.1)
  }

  lemma StepAlone(t: Talk, i: Input)
    requires TalkAlone(t)
    ensures TalkAlone(Step(t, i).0)
  {
    ReplyAlone([t], 0, i);
  }

  /** Running it touches no other generator. */
  lemma {:induction false} RunAlone(st: Store, stack: seq<nat>, g: nat, b: Body, d: Data, x: nat)
    requires Valid(st, stack) && stack != [] && Top(stack) == g && Targets(b, |st|) && Alone(b)
    requires x < |st| && x != g
    ensures Run(st, stack, g, b, d)[x] == st[x]
  {
    match b
    case If(t, u, v) => RunAlone(st, stack, g, if t(d) then u else v, d, x);
    case _ =>
  }

  lemma ResumeAlone(st: Store, stack: seq<nat>, g: nat, was: Gen, x: nat)
    requires Valid(st, stack) && stack != [] && Top(stack) == g && st[g].inVal.Some?
    requires (was.status.PENDING? || was.status.SUSPENDED?) && GenOk(was, |st|) && TalkAlone(TalkOf(was))
    requires x < |st| && x != g
    ensures Resume(st, stack, g, was)[x] == st[x]
  {
    if was.status.PENDING? { RunAlone(st, stack, g, was.executor, Data([], []), x); }
    else { RunAlone(st, stack, g, was.frame.onValue, WithValue(was.frame.data, st[g].inVal.value), x); }
  }

  lemma GiveAlone(st: Store, g: nat, i: Input, x: nat)
    requires Valid(st, []) && g < |st| && TalkAlone(TalkOf(st[g])) && x < |st| && x != g
    ensures Give(st, [], g, i).0[x] == st[x]
  {
    assert GenOk(st[g], |st|);
    if i.Send? && (st[g].status.PENDING? || st[g].status.SUSPENDED?) {
      EnterOk(st, [], g, Some(i.value));
      assert [] + [g] == [g];
      ResumeAlone(Enter(st, [], g, Some(i.value)), [g], g, st[g], x);
    } else if i.Inject? && st[g].status.SUSPENDED? {
      ThrownAlone(st, g, i.error, x);
    }
  }

  lemma ThrownAlone(st: Store, g: nat, e: Error, x: nat)
    requires Valid(st, []) && g < |st| && st[g].status.SUSPENDED? && Alone(st[g].frame.onError) && x < |st| && x != g
    ensures ThrowIn(st, [], g, e).0[x] == st[x]
  {
    assert GenOk(st[g], |st|);
    EnterOk(st, [], g, None);
    assert [] + [g] == [g];
    RunAlone(Enter(st, [], g, None), [g], g, st[g].frame.onError, WithError(st[g].frame.data, e), x);
  }

  /** Driven in any way, a generator whose body keeps to itself gives the answers of its own tree, node by node,
      and no other generator notices. */
  lemma {:induction false} DriveAlone(st: Store, g: nat, ins: seq<Input>)
    requires Valid(st, []) && g < |st| && TalkAlone(TalkOf(st[g]))
    ensures var r := Drive(st, g, ins);
            && (TalkOf(r.0[g]), r.1) == Steps(TalkOf(st[g]), ins)
            && forall x :: 0 <= x < |st| && x != g ==> r.0[x] == st[x]
    decreases |ins|
  {
    if ins != [] {
      var r := Give(st, [], g, ins[0]);
      GiveTalks(st, [], g, ins[0]);
      ReplyAlone(Talks(st), g, ins[0]);
      assert Talks(st)[g] == TalkOf(st[g]) && Talks(r.0)[g] == TalkOf(r.0[g]);
      forall x | 0 <= x < |st| && x != g ensures r.0[x] == st[x] { GiveAlone(st, g, ins[0], x); }
      DriveAlone(r.0, g, ins[1..]);
    }
  }

  // -------------------------------------------------------------------------------------------
  // yield_from
  // -------------------------------------------------------------------------------------------

  /** The tests in front of `b` lead to `yield_from` of `t`, to be followed by `x`, or by `y` where an
      exception is caught. */
  ghost predicate LeadsTo(b: Body, d: Data, t: nat, x: Body, y: Body) {
    match b
    case If(test, u, v) => if test(d) then LeadsTo(u, d, t, x, y) else LeadsTo(v, d, t, x, y)
    case YieldFrom(target, k, onError) => target == t && k == x && onError == y
    case _ => false
  }

  /** The next value sent to this body goes to `t`: the body is in `yield_from`, or the value makes it reach
      one - as the first value of a body, or as the one that its last yield was waiting for. */
  ghost predicate Delegates(talk: Talk, v: Value, t: nat, x: Body, y: Body, d: Data) {
    match talk
    case Unstarted(b, _) => d == Data([], []) && LeadsTo(b, d, t, x, y)
    case Waiting(k, _, data, _) => d == WithValue(data, v) && LeadsTo(k, d, t, x, y)
    case Delegating(target, k, onError, data, _) => target == t && k == x && onError == y && data == d
    case _ => false
  }

  function LastOf(talk: Talk): Value
    requires talk.Unstarted? || talk.Waiting? || talk.Delegating? || talk.Over?
  {
    talk.last
  }

  lemma {:induction false} SpeakLeads(w: World, g: nat, b: Body, d: Data, last: Value, sent: Option<Value>, t: nat,
                                      x: Body, y: Body)
    requires g < |w| && LeadsTo(b, d, t, x, y)
    ensures Speak(w, g, b, d, last, sent) == Speak(w, g, YieldFrom(t, x, y), d, last, sent)
  {
    match b
    case If(test, u, v) => SpeakLeads(w, g, if test(d) then u else v, d, last, sent, t, x, y);
    case YieldFrom(_, _, _) =>
  }

  /** What a delegating generator does with a value, in full: while the inner one is not over it gets the
      value, its answer is passed on, and an exception of it arrives in the outer body; once it is over the
      outer body goes on by itself, emitting nothing of the inner one. */
  lemma DelegateSend(w: World, g: nat, v: Value, t: nat, x: Body, y: Body, d: Data)
    requires g < |w| && t < |w| && Delegates(w[g], v, t, x, y, d)
    ensures var w1, last, r := w[g := Speaking], LastOf(w[g]), Reply(w, g, Send(v));
            if w1[t].Over? then r == Turn(Speak(w1, g, x, d, last, Some(v)), g)
            else
              var s := Reply(w1, t, Send(v));
              match s.1
              case Ok(u) => r == (s.0[g := Delegating(t, x, y, d, u)], Ok(u))
              case Err(e) => r == Turn(Speak(s.0, g, y, WithError(d, e), last, Some(v)), g)
              case Crash => r.1 == Crash
  {
    var w1 := w[g := Speaking];
    match w[g]
    case Unstarted(b, last) => SpeakLeads(w1, g, b, d, last, Some(v), t, x, y);
    case Waiting(k, _, _, last) => SpeakLeads(w1, g, k, d, last, Some(v), t, x, y);
    case Delegating(_, _, _, _, _) =>
  }

  /** An exception thrown in while delegating goes to the outer body, and the inner generator does not see it:
      where the outer body catches it and keeps to itself, its answer is that of its own tree, and the inner
      generator, like all others, is exactly as it was. */
  lemma DelegateThrow(st: Store, g: nat, e: Error)
    requires Valid(st, []) && g < |st| && st[g].status.SUSPENDED? && st[g].frame.InYieldFrom?
    requires Alone(st[g].frame.onError)
    ensures var r, f := ThrowIn(st, [], g, e), st[g].frame;
            && TalkOf(r.0[g]) == Walk(f.onError, WithError(f.data, e), st[g].outVal)
            && r.1 == Shown(TalkOf(r.0[g]))
            && forall x :: 0 <= x < |st| && x != g ==> r.0[x] == st[x]
  {
    var r, f, w1 := ThrowIn(st, [], g, e), st[g].frame, Talks(st)[g := Speaking];
    GiveTalks(st, [], g, Inject(e));
    DelegateThrowAny(Talks(st), g, e);
    SpeakAlone(w1, g, f.onError, WithError(f.data, e), st[g].outVal, None);
    assert Talks(r.0)[g] == TalkOf(r.0[g]);
    forall x | 0 <= x < |st| && x != g ensures r.0[x] == st[x] { ThrownAlone(st, g, e, x); }
  }

  /** Whatever the outer body does then, it starts from the world as it was. */
  lemma DelegateThrowAny(w: World, g: nat, e: Error)
    requires g < |w| && w[g].Delegating?
    ensures Reply(w, g, Inject(e))
         == Turn(Speak(w[g := Speaking], g, w[g].onError, WithError(w[g].data, e), w[g].last, None), g)
  {
  }

  function Sends(vs: seq<Value>): seq<Input> {
    seq(|vs|, i requires 0 <= i < |vs| => Send(vs[i]))
  }

  /** None of the values `vs` is sent in vain to `t`, and none makes it raise. */
  predicate Streams(w: World, t: nat, vs: seq<Value>)
    requires t < |w|
    decreases |vs|
  {
    vs == [] || (!w[t].Over? && Reply(w, t, Send(vs[0])).1.Ok? && Streams(Reply(w, t, Send(vs[0])).0, t, vs[1..]))
  }

  /** A generator that speaks throughout a conversation with another one still does afterwards. */
  lemma {:induction false} SpeakKeeps(w: World, h: nat, b: Body, d: Data, last: Value, sent: Option<Value>, g: nat)
    requires h < |w| && g < |w| && g != h && w[g].Speaking? && w[h].Speaking?
    ensures Speak(w, h, b, d, last, sent)[g].Speaking?
    decreases Worths(w) + Size(b), 0
  {
    match b
    case If(t, x, y) => SpeakKeeps(w, h, if t(d) then x else y, d, last, sent, g);
    case Next(t, e, x, y) =>
      if t < |w| {
        ReplyKeeps(w, t, Send(e(d)), g);
        ReplyKeeps(w, t, Send(e(d)), h);
        HearKeeps(Reply(w, t, Send(e(d))).0, h, Reply(w, t, Send(e(d))).1, x, y, d, last, sent, Worths(w), g);
      }
    case Throw(t, e, x, y) =>
      if t < |w| {
        ReplyKeeps(w, t, Inject(e(d)), g);
        ReplyKeeps(w, t, Inject(e(d)), h);
        HearKeeps(Reply(w, t, Inject(e(d))).0, h, Reply(w, t, Inject(e(d))).1, x, y, d, last, sent, Worths(w), g);
      }
    case YieldFrom(t, x, y) =>
      if t < |w| && w[t].Over? {
        SpeakKeeps(w, h, x, d, last, sent, g);
      } else if t < |w| && sent.Some? {
        var r := Reply(w, t, Send(sent.value));
        ReplyKeeps(w, t, Send(sent.value), g);
        ReplyKeeps(w, t, Send(sent.value), h);
        if r.1.Err? { SpeakKeeps(r.0, h, y, WithError(d, r.1.error), last, sent, g); }
      }
    case _ =>
  }

  lemma {:induction false} HearKeeps(w: World, h: nat, a: Result, x: Body, y: Body, d: Data, last: Value,
                                     sent: Option<Value>, bound: nat, g: nat)
    requires h < |w| && g < |w| && g != h && w[g].Speaking? && w[h].Speaking? && Worths(w) <= bound
    ensures Hear(w, h, a, x, y, d, last, sent, bound)[g].Speaking?
    decreases bound + Size(x) + Size(y), 0
  {
    match a
    case Ok(v) => SpeakKeeps(w, h, x, WithValue(d, v), last, sent, g);
    case Err(e) => SpeakKeeps(w, h, y, WithError(d, e), last, sent, g);
    case Crash =>
  }

  lemma {:induction false} ReplyKeeps(w: World, h: nat, i: Input, g: nat)
    requires h < |w| && g < |w| && w[g].Speaking?
    ensures Reply(w, h, i).0[g].Speaking?
    decreases Worths(w), 1
  {
    var w1 := w[h := Speaking];
    WorthsUpdate(w, h, Speaking);
    if h != g {
      match w[h]
      case Unstarted(b, last) =>
        if i.Send? { SpeakKeeps(w1, h, b, Data([], []), last, Some(i.value), g); }
      case Waiting(x, y, d, last) =>
        if i.Send? { SpeakKeeps(w1, h, x, WithValue(d, i.value), last, Some(i.value), g); }
        else { SpeakKeeps(w1, h, y, WithError(d, i.error), last, None, g); }
      case Delegating(t, x, y, d, last) =>
        if i.Send? { SpeakKeeps(w1, h, YieldFrom(t, x, y), d, last, Some(i.value), g); }
        else { SpeakKeeps(w1, h, y, WithError(d, i.error), last, None, g); }
      case _ =>
    }
  }

  /** `yield_from` is a graft.  From wherever the outer generator reaches it, and whatever the inner one is -
      it may itself delegate or resume others - the outer one gives, for the values sent in, the answers
      that the inner one gives: its remaining yields and then its return value.  Afterwards all others stand
      as if the inner one had been driven by itself. */
  lemma {:induction false} GraftTalk(w: World, g: nat, t: nat, x: Body, y: Body, d: Data, vs: seq<Value>)
    requires g < |w| && t < |w| && g != t && vs != [] && Delegates(w[g], vs[0], t, x, y, d)
    requires Streams(w[g := Speaking], t, vs)
    ensures var w1 := w[g := Speaking];
            && Conversation(w, g, Sends(vs)) == Conversation(w1, t, Sends(vs))
            && AfterTalk(w, g, Sends(vs))[g].Delegating?
            && AfterTalk(w, g, Sends(vs))[g := Speaking] == AfterTalk(w1, t, Sends(vs))
            && (forall v :: Delegates(AfterTalk(w, g, Sends(vs))[g], v, t, x, y, d))
    decreases |vs|
  {
    var w1 := w[g := Speaking];
    var s := Reply(w1, t, Send(vs[0]));
    DelegateSend(w, g, vs[0], t, x, y, d);
    ReplyKeeps(w1, t, Send(vs[0]), g);
    assert Sends(vs)[1..] == Sends(vs[1..]) && Sends(vs)[0] == Send(vs[0]);
    var w' := Reply(w, g, Send(vs[0])).0;
    assert w'[g := Speaking] == s.0;
    if |vs| > 1 {
      GraftTalk(w', g, t, x, y, d, vs[1..]);
    } else {
      assert Sends(vs[1..]) == [];
    }
  }

  /** The same of generators. */
  lemma Graft(st: Store, g: nat, t: nat, x: Body, y: Body, d: Data, vs: seq<Value>)
    requires Valid(st, []) && g < |st| && t < |st| && g != t && vs != [] && Delegates(TalkOf(st[g]), vs[0], t, x, y, d)
    requires Streams(Talks(st)[g := Speaking], t, vs)
    ensures var r, w1 := Drive(st, g, Sends(vs)), Talks(st)[g := Speaking];
            && r.1 == Conversation(w1, t, Sends(vs))
            && Talks(r.0)[g := Speaking] == AfterTalk(w1, t, Sends(vs))
            && forall v :: Delegates(TalkOf(r.0[g]), v, t, x, y, d)
  {
    GraftTalk(Talks(st), g, t, x, y, d, vs);
    FollowsTree(st, g, Sends(vs));
    assert Talks(Drive(st, g, Sends(vs)).0)[g] == TalkOf(Drive(st, g, Sends(vs)).0[g]);
  }

  /** An inner generator that keeps to itself gives the answers that it gives when driven from outside. */
  lemma {:induction false} AloneAnywhere(w: World, g: nat, t: nat, ins: seq<Input>)
    requires g < |w| && t < |w| && g != t && TalkAlone(w[t])
    ensures Conversation(w[g := Speaking], t, ins) == Conversation(w, t, ins)
    decreases |ins|
  {
    if ins != [] {
      var w1 := w[g := Speaking];
      ReplyAlone(w, t, ins[0]);
      ReplyAlone(w1, t, ins[0]);
      assert Reply(w1, t, ins[0]).0 == Reply(w, t, ins[0]).0[g := Speaking];
      AloneAnywhere(Reply(w, t, ins[0]).0, g, t, ins[1..]);
    }
  }
}
