/** When `yield_from` reads the value sent in through a null pointer: `_throw` leaves that pointer null, and a
    body that catches the exception and then delegates dereferences it. */
module GeneratorCrashes {
  import opened Scripts
  import opened Generators
  import opened GeneratorLaws

  // -------------------------------------------------------------------------------------------
  // Bodies that yield and delegate: exactly when
  // -------------------------------------------------------------------------------------------

  /** A body that yields, returns, raises and delegates. */
  predicate Tree(b: Body, n: nat) {
    match b
    case If(_, x, y) => Tree(x, n) && Tree(y, n)
    case Yield(_, x, y) => Tree(x, n) && Tree(y, n)
    case YieldFrom(t, x, y) => t < n && Tree(x, n) && Tree(y, n)
    case Return(_) => true
    case Raise(_) => true
    case _ => false
  }

  predicate TalkTree(t: Talk, n: nat) {
    match t
    case Unstarted(b, _) => Tree(b, n)
    case Waiting(x, y, _, _) => Tree(x, n) && Tree(y, n)
    case Delegating(t, x, y, _, _) => t < n && Tree(x, n) && Tree(y, n)
    case Speaking => true
    case Over(_, _) => true
    case Lost => false
  }

  ghost predicate Trees(w: World) {
    forall g :: 0 <= g < |w| ==> TalkTree(w[g], |w|)
  }

  /** Resumed by an exception at `b`, the body comes to `yield_from` of a generator that is not done, before it
      yields or ends. */
  predicate Starves(w: World, b: Body, d: Data) {
    match b
    case If(t, x, y) => if t(d) then Starves(w, x, d) else Starves(w, y, d)
    case YieldFrom(t, x, _) => t < |w| && (w[t].Over? ==> Starves(w, x, d))
    case _ => false
  }

  lemma {:induction false} SpeakFed(w: World, g: nat, b: Body, d: Data, last: Value, v: Value)
    requires Trees(w) && g < |w| && Tree(b, |w|)
    ensures Trees(Speak(w, g, b, d, last, Some(v))) && !Speak(w, g, b, d, last, Some(v))[g].Lost?
    decreases Worths(w) + Size(b), 0
  {
    match b
    case If(t, x, y) => SpeakFed(w, g, if t(d) then x else y, d, last, v);
    case YieldFrom(t, x, y) =>
      if w[t].Over? {
        SpeakFed(w, g, x, d, last, v);
      } else {
        ReplyFed(w, t, v);
        var r := Reply(w, t, Send(v));
        if r.1.Err? { SpeakFed(r.0, g, y, WithError(d, r.1.error), last, v); }
      }
    case _ =>
  }

  /** A value sent in never leads to a crash. */
  lemma {:induction false} ReplyFed(w: World, g: nat, v: Value)
    requires Trees(w) && g < |w|
    ensures Trees(Reply(w, g, Send(v)).0) && !Reply(w, g, Send(v)).1.Crash?
    decreases Worths(w), 1
  {
    assert TalkTree(w[g], |w|);
    WorthsUpdate(w, g, Speaking);
    var w1 := w[g := Speaking];
    match w[g]
    case Unstarted(b, last) => SpeakFed(w1, g, b, Data([], []), last, v);
    case Waiting(x, _, d, last) => SpeakFed(w1, g, x, WithValue(d, v), last, v);
    case Delegating(t, x, y, d, last) => SpeakFed(w1, g, YieldFrom(t, x, y), d, last, v);
    case _ =>
  }

  lemma {:induction false} SpeakStarved(w: World, g: nat, b: Body, d: Data, last: Value)
    requires Trees(w) && g < |w| && Tree(b, |w|)
    ensures var r := Speak(w, g, b, d, last, None);
            if Starves(w, b, d) then r == w[g := Lost] else Trees(r) && !r[g].Lost?
  {
    match b
    case If(t, x, y) => SpeakStarved(w, g, if t(d) then x else y, d, last);
    case YieldFrom(t, x, _) => if w[t].Over? { SpeakStarved(w, g, x, d, last); }
    case _ =>
  }

  /** Whether an exception thrown into `g` makes its body starve. */
  predicate StarvedBy(w: World, g: nat, e: Error)
    requires g < |w|
  {
    match w[g]
    case Waiting(_, y, d, _) => Starves(w, y, WithError(d, e))
    case Delegating(_, _, y, d, _) => Starves(w, y, WithError(d, e))
    case _ => false
  }

  lemma {:induction false} StarvesElsewhere(w: World, g: nat, b: Body, d: Data)
    requires g < |w| && !w[g].Over?
    ensures Starves(w[g := Speaking], b, d) <==> Starves(w, b, d)
  {
    match b
    case If(t, x, y) => StarvesElsewhere(w, g, if t(d) then x else y, d);
    case YieldFrom(t, x, _) => StarvesElsewhere(w, g, x, d);
    case _ =>
  }

  lemma ReplyCrashesIff(w: World, g: nat, i: Input)
    requires Trees(w) && g < |w|
    ensures Reply(w, g, i).1.Crash? <==> i.Inject? && StarvedBy(w, g, i.error)
    ensures !Reply(w, g, i).1.Crash? ==> Trees(Reply(w, g, i).0)
  {
    assert TalkTree(w[g], |w|);
    if i.Send? {
      ReplyFed(w, g, i.value);
    } else {
      match w[g]
      case Waiting(_, y, d, last) =>
        StarvesElsewhere(w, g, y, WithError(d, i.error));
        SpeakStarved(w[g := Speaking], g, y, WithError(d, i.error), last);
      case Delegating(_, _, y, d, last) =>
        StarvesElsewhere(w, g, y, WithError(d, i.error));
        SpeakStarved(w[g := Speaking], g, y, WithError(d, i.error), last);
      case _ =>
    }
  }

  /** In a program of generators that yield and delegate, `next` never crashes, and `_throw` does if and only
      if the body, going on where it catches the exception, comes to `yield_from` of an unfinished generator
      before anything is sent in again. */
  lemma CrashesIff(st: Store, g: nat, i: Input)
    requires Valid(st, []) && g < |st| && Trees(Talks(st))
    ensures Give(st, [], g, i).1.Crash? <==> i.Inject? && StarvedBy(Talks(st), g, i.error)
    ensures !Give(st, [], g, i).1.Crash? ==> Trees(Talks(Give(st, [], g, i).0))
  {
    GiveTalks(st, [], g, i);
    ReplyCrashesIff(Talks(st), g, i);
  }

  /** One turn of the loop in `yield_from`, where neither the inner generator nor the rest of the body can
      crash by itself: it crashes if and only if the inner one is not done and no value was sent in. */
  lemma TurnCrashesIff(st: Store, stack: seq<nat>, g: nat, t: nat, x: Body, y: Body, d: Data)
    requires Valid(st, stack) && stack != [] && Top(stack) == g && t < |st| && Targets(x, |st|) && Targets(y, |st|)
    requires Alone(x) && Alone(y) && (TalkAlone(TalkOf(st[t])) || st[t].status.RUNNING?)
    ensures Run(st, stack, g, YieldFrom(t, x, y), d)[g].status.CRASHED? <==> !st[t].status.DONE? && st[g].inVal.None?
  {
    HoldsTop(st, stack, g);
    var w, last, sent := Talks(st), st[g].outVal, st[g].inVal;
    RunTalks(st, stack, g, YieldFrom(t, x, y), d, last, sent);
    var r := Run(st, stack, g, YieldFrom(t, x, y), d);
    assert Talks(r)[g] == TalkOf(r[g]);
    SpeakAlone(w, g, x, d, last, sent);
    if !st[t].status.DONE? && sent.Some? {
      var s := Reply(w, t, Send(sent.value));
      if !st[t].status.RUNNING? { ReplyAlone(w, t, Send(sent.value)); StepNoCrash(w[t], Send(sent.value)); }
      if s.1.Err? { SpeakAlone(s.0, g, y, WithError(d, s.1.error), last, sent); }
    }
  }

  /** The same for any rest of a body, in a program whose bodies yield and delegate: it crashes if and only if no
      value was sent in, and it comes to `yield_from` of an unfinished generator before it yields or ends. */
  lemma RunCrashesIff(st: Store, stack: seq<nat>, g: nat, b: Body, d: Data)
    requires Valid(st, stack) && stack != [] && Top(stack) == g && Targets(b, |st|)
    requires Trees(Talks(st)) && Tree(b, |st|)
    ensures Run(st, stack, g, b, d)[g].status.CRASHED? <==> st[g].inVal.None? && Starves(Talks(st), b, d)
  {
    HoldsTop(st, stack, g);
    var w, last, r := Talks(st), st[g].outVal, Run(st, stack, g, b, d);
    RunTalks(st, stack, g, b, d, last, st[g].inVal);
    assert Talks(r)[g] == TalkOf(r[g]);
    match st[g].inVal
    case Some(v) => SpeakFed(w, g, b, d, last, v);
    case None => SpeakStarved(w, g, b, d, last);
  }

  lemma StepNoCrash(t: Talk, i: Input)
    requires TalkAlone(t)
    ensures !Step(t, i).1.Crash?
  {
    if t.Unstarted? { WalkNoCrash(t.b, Data([], []), t.last); }
    if t.Waiting? && i.Send? { WalkNoCrash(t.onValue, WithValue(t.data, i.value), t.last); }
    if t.Waiting? && i.Inject? { WalkNoCrash(t.onError, WithError(t.data, i.error), t.last); }
  }

  lemma {:induction false} WalkNoCrash(b: Body, d: Data, last: Value)
    requires Alone(b)
    ensures !Walk(b, d, last).Lost?
  {
    match b
    case If(t, x, y) => WalkNoCrash(if t(d) then x else y, d, last);
    case _ =>
  }

  function End(v: Data -> Value): Body {
    Body.Return(v)
  }

  /** A generator that catches an exception at its first yield and then delegates to a new one. */
  function CrashStore(v: Data -> Value, out: Value): Store {
    [Create(Yield(v, End(v), YieldFrom(1, End(v), End(v))), out), Create(End(v), out)]
  }

  lemma CrashStoreOk(v: Data -> Value, out: Value)
    ensures Valid(CrashStore(v, out), []) && |CrashStore(v, out)| == 2
    ensures Talks(CrashStore(v, out))
         == [Unstarted(Yield(v, End(v), YieldFrom(1, End(v), End(v))), out), Unstarted(End(v), out)]
  {
    var st := CrashStore(v, out);
    assert Targets(YieldFrom(1, End(v), End(v)), 2) && GenOk(st[0], 2) && GenOk(st[1], 2);
  }

  lemma CrashInstance(v: Data -> Value, out: Value, u: Value, e: Error)
    ensures Valid(CrashStore(v, out), [])
    ensures Drive(CrashStore(v, out), 0, [Send(u), Inject(e)]).1 == [Ok(v(Data([], []))), Crash]
  {
    var st, b := CrashStore(v, out), YieldFrom(1, End(v), End(v));
    CrashStoreOk(v, out);
    FollowsTree(st, 0, [Send(u), Inject(e)]);
    YieldsFirst(Talks(st), v, b, out, u);
    CrashesThen([Waiting(End(v), b, Data([], []), v(Data([], []))), Unstarted(End(v), out)], e);
    TwoTurns(Talks(st), 0, Send(u), Inject(e));
  }

  lemma TwoTurns(w: World, g: nat, i: Input, j: Input)
    requires g < |w|
    ensures Conversation(w, g, [i, j]) == [Reply(w, g, i).1, Reply(Reply(w, g, i).0, g, j).1]
  {
    assert [i, j][1..] == [j] && [j][1..] == [];
    assert Conversation(Reply(w, g, i).0, g, [j]) == [Reply(Reply(w, g, i).0, g, j).1];
  }

  lemma YieldsFirst(w: World, v: Data -> Value, b: Body, out: Value, u: Value)
    requires w == [Unstarted(Yield(v, End(v), b), out), Unstarted(End(v), out)]
    ensures var d := Data([], []);
            Reply(w, 0, Send(u)) == ([Waiting(End(v), b, d, v(d)), Unstarted(End(v), out)], Ok(v(d)))
  {
    var d, w0 := Data([], []), w[0 := Speaking];
    assert Speak(w0, 0, Yield(v, End(v), b), d, out, Some(u)) == w0[0 := Waiting(End(v), b, d, v(d))];
    assert w0[0 := Waiting(End(v), b, d, v(d))] == [Waiting(End(v), b, d, v(d)), Unstarted(End(v), out)];
  }

  lemma CrashesThen(w: World, e: Error)
    requires |w| == 2 && w[0].Waiting? && w[0].onError.YieldFrom? && w[0].onError.target == 1 && !w[1].Over?
    ensures Reply(w, 0, Inject(e)).1 == Crash
  {
    var w0 := w[0 := Speaking];
    assert Speak(w0, 0, w[0].onError, WithError(w[0].data, e), w[0].last, None) == w0[0 := Lost];
  }

  // -------------------------------------------------------------------------------------------
  // Any bodies: a condition that can be read off them
  // -------------------------------------------------------------------------------------------

  /** No way through the body leads from a caught exception to `yield_from` without a value sent in between.
      `fed` says whether it was resumed with a value. */
  predicate Fed(b: Body, fed: bool) {
    match b
    case Return(_) => true
    case Raise(_) => true
    case If(_, x, y) => Fed(x, fed) && Fed(y, fed)
    case Yield(_, x, y) => Fed(x, true) && Fed(y, false)
    case Next(_, _, x, y) => Fed(x, fed) && Fed(y, fed)
    case Throw(_, _, x, y) => Fed(x, fed) && Fed(y, fed)
    case YieldFrom(_, x, y) => fed && Fed(x, true) && Fed(y, false)
  }

  predicate TalkFed(t: Talk) {
    match t
    case Unstarted(b, _) => Fed(b, true)
    case Waiting(x, y, _, _) => Fed(x, true) && Fed(y, false)
    case Delegating(_, x, y, _, _) => Fed(x, true) && Fed(y, false)
    case Speaking => true
    case Over(_, _) => true
    case Lost => false
  }

  ghost predicate AllFed(w: World) {
    forall g :: 0 <= g < |w| ==> TalkFed(w[g])
  }

  lemma {:induction false} FedMore(b: Body)
    requires Fed(b, false)
    ensures Fed(b, true)
  {
    match b
    case If(_, x, y) => FedMore(x); FedMore(y);
    case Next(_, _, x, y) => FedMore(x); FedMore(y);
    case Throw(_, _, x, y) => FedMore(x); FedMore(y);
    case _ =>
  }

  lemma {:induction false} SpeakAllFed(w: World, g: nat, b: Body, d: Data, last: Value, sent: Option<Value>)
    requires AllFed(w) && g < |w| && w[g].Speaking? && Fed(b, sent.Some?)
    ensures AllFed(Speak(w, g, b, d, last, sent))
    decreases Worths(w) + Size(b), 0
  {
    match b
    case If(t, x, y) => SpeakAllFed(w, g, if t(d) then x else y, d, last, sent);
    case Next(t, e, x, y) =>
      if t < |w| {
        ReplyAllFed(w, t, Send(e(d)));
        ReplyKeeps(w, t, Send(e(d)), g);
        var r := Reply(w, t, Send(e(d)));
        HearAllFed(r.0, g, r.1, x, y, d, last, sent, Worths(w));
      }
    case Throw(t, e, x, y) =>
      if t < |w| {
        ReplyAllFed(w, t, Inject(e(d)));
        ReplyKeeps(w, t, Inject(e(d)), g);
        var r := Reply(w, t, Inject(e(d)));
        HearAllFed(r.0, g, r.1, x, y, d, last, sent, Worths(w));
      }
    case YieldFrom(t, x, y) =>
      if t < |w| {
        if w[t].Over? {
          SpeakAllFed(w, g, x, d, last, sent);
        } else {
          ReplyAllFed(w, t, Send(sent.value));
          ReplyKeeps(w, t, Send(sent.value), g);
          var r := Reply(w, t, Send(sent.value));
          if r.1.Err? {
            FedMore(y);
            SpeakAllFed(r.0, g, y, WithError(d, r.1.error), last, sent);
          }
        }
      }
    case _ =>
  }

  lemma {:induction false} HearAllFed(w: World, g: nat, a: Result, x: Body, y: Body, d: Data, last: Value,
                                      sent: Option<Value>, bound: nat)
    requires AllFed(w) && g < |w| && w[g].Speaking? && Fed(x, sent.Some?) && Fed(y, sent.Some?)
    requires !a.Crash? && Worths(w) <= bound
    ensures AllFed(Hear(w, g, a, x, y, d, last, sent, bound))
    decreases bound + Size(x) + Size(y), 0
  {
    match a
    case Ok(v) => SpeakAllFed(w, g, x, WithValue(d, v), last, sent);
    case Err(e) => SpeakAllFed(w, g, y, WithError(d, e), last, sent);
  }

  lemma {:induction false} ReplyAllFed(w: World, g: nat, i: Input)
    requires AllFed(w) && g < |w|
    ensures AllFed(Reply(w, g, i).0) && !Reply(w, g, i).1.Crash?
    decreases Worths(w), 1
  {
    assert TalkFed(w[g]);
    WorthsUpdate(w, g, Speaking);
    var w1 := w[g := Speaking];
    match w[g]
    case Unstarted(b, last) =>
      if i.Send? { SpeakAllFed(w1, g, b, Data([], []), last, Some(i.value)); }
    case Waiting(x, y, d, last) =>
      if i.Send? { SpeakAllFed(w1, g, x, WithValue(d, i.value), last, Some(i.value)); }
      else { SpeakAllFed(w1, g, y, WithError(d, i.error), last, None); }
    case Delegating(t, x, y, d, last) =>
      if i.Send? { SpeakAllFed(w1, g, YieldFrom(t, x, y), d, last, Some(i.value)); }
      else { SpeakAllFed(w1, g, y, WithError(d, i.error), last, None); }
    case _ =>
  }

  /** A program all of whose bodies are fed never crashes, however it is driven. */
  lemma {:induction false} FedNeverCrashes(st: Store, g: nat, ins: seq<Input>, k: nat)
    requires Valid(st, []) && g < |st| && AllFed(Talks(st)) && k < |ins|
    ensures k < |Drive(st, g, ins).1| && !Drive(st, g, ins).1[k].Crash?
    decreases |ins|
  {
    GiveTalks(st, [], g, ins[0]);
    ReplyAllFed(Talks(st), g, ins[0]);
    if k > 0 { FedNeverCrashes(Give(st, [], g, ins[0]).0, g, ins[1..], k - 1); }
  }
}
