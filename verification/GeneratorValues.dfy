/** What is sent and thrown into a generator reaches its body, and what the generators it resumes answer. */
module GeneratorValues {
  import opened Scripts
  import opened Generators
  import opened GeneratorLaws

  // -------------------------------------------------------------------------------------------
  // Echo
  // -------------------------------------------------------------------------------------------

  /** Yields `n` times and returns, each time with the value that it received last; raises what it catches. */
  function Echo(n: nat): Body {
    if n == 0 then Body.Return(LAST_VALUE) else Yield(LAST_VALUE, Echo(n - 1), Raise(LAST_ERROR))
  }

  lemma {:induction false} EchoAlone(n: nat)
    ensures Alone(Echo(n))
  {
    if n > 0 { EchoAlone(n - 1); }
  }

  /** Each value once, up to number `n`; that one for ever. */
  function Echoed(n: nat, vs: seq<Value>): (rs: seq<Result>)
    ensures |rs| == |vs|
  {
    seq(|vs|, i requires 0 <= i < |vs| => Ok(vs[if i < n then i else n]))
  }

  lemma {:induction false} StepsOver(v: Value, vs: seq<Value>)
    ensures Steps(Over(v, None), Sends(vs)).1 == seq(|vs|, _ => Ok(v))
    decreases |vs|
  {
    if vs != [] {
      assert Sends(vs)[0] == Send(vs[0]) && Sends(vs)[1..] == Sends(vs[1..]);
      StepsOver(v, vs[1..]);
    }
  }

  lemma {:induction false} StepsEcho(n: nat, d: Data, last: Value, vs: seq<Value>)
    ensures TalkAlone(Waiting(Echo(n), Raise(LAST_ERROR), d, last))
    ensures Steps(Waiting(Echo(n), Raise(LAST_ERROR), d, last), Sends(vs)).1 == Echoed(n, vs)
    decreases |vs|
  {
    EchoAlone(n);
    if vs != [] {
      assert Sends(vs)[0] == Send(vs[0]) && Sends(vs)[1..] == Sends(vs[1..]);
      var d1 := Data(d.vals + [vs[0]], d.errs);
      if n == 0 {
        assert Step(Waiting(Echo(0), Raise(LAST_ERROR), d, last), Send(vs[0])) == (Over(vs[0], None), Ok(vs[0]));
        StepsOver(vs[0], vs[1..]);
      } else {
        assert Step(Waiting(Echo(n), Raise(LAST_ERROR), d, last), Send(vs[0]))
            == (Waiting(Echo(n - 1), Raise(LAST_ERROR), d1, vs[0]), Ok(vs[0]));
        StepsEcho(n - 1, d1, vs[0], vs[1..]);
      }
    }
  }

  /** A generator that waits to echo answers every value with that value, until it is done; then it repeats the value it
      returned. */
  lemma EchoAnswers(st: Store, g: nat, n: nat, vs: seq<Value>)
    requires Valid(st, []) && g < |st| && st[g].status.SUSPENDED? && st[g].frame.AtYield?
    requires st[g].frame.onValue == Echo(n) && st[g].frame.onError == Raise(LAST_ERROR)
    ensures Drive(st, g, Sends(vs)).1 == Echoed(n, vs)
  {
    StepsEcho(n, st[g].frame.data, st[g].outVal, vs);
    DriveAlone(st, g, Sends(vs));
  }

  /** The same from the start: the value that starts a body is received by nobody. */
  lemma EchoFromStart(st: Store, g: nat, n: nat, out: Value, v: Value, vs: seq<Value>)
    requires Valid(st, []) && g < |st| && st[g] == Create(Echo(n + 1), out)
    ensures Drive(st, g, Sends([v] + vs)).1 == [Ok(Blank)] + Echoed(n, vs)
  {
    EchoAlone(n + 1);
    assert Sends([v] + vs)[0] == Send(v) && Sends([v] + vs)[1..] == Sends(vs);
    StepsEcho(n, Data([], []), Blank, vs);
    DriveAlone(st, g, Sends([v] + vs));
  }

  // -------------------------------------------------------------------------------------------
  // At a yield
  // -------------------------------------------------------------------------------------------

  /** How a body that returns, raises or yields at once answers, having received `d`. */
  predicate AnswersAt(b: Body, d: Data, r: Result) {
    match b
    case Return(f) => r == Ok(f(d))
    case Raise(h) => r == Err(h(d))
    case Yield(f, _, _) => r == Ok(f(d))
    case _ => true
  }

  lemma SpeakAnswers(w: World, g: nat, b: Body, d: Data, last: Value, sent: Option<Value>)
    requires g < |w|
    ensures AnswersAt(b, d, Shown(Speak(w, g, b, d, last, sent)[g]))
  {
  }

  lemma ReplyToSend(w: World, g: nat, v: Value)
    requires g < |w| && w[g].Waiting?
    ensures AnswersAt(w[g].onValue, Data(w[g].data.vals + [v], w[g].data.errs), Reply(w, g, Send(v)).1)
  {
    SpeakAnswers(w[g := Speaking], g, w[g].onValue, Data(w[g].data.vals + [v], w[g].data.errs), w[g].last, Some(v));
  }

  lemma ReplyToThrow(w: World, g: nat, e: Error)
    requires g < |w| && (w[g].Waiting? || w[g].Delegating?)
    ensures AnswersAt(w[g].onError, Data(w[g].data.vals, w[g].data.errs + [e]), Reply(w, g, Inject(e)).1)
  {
    SpeakAnswers(w[g := Speaking], g, w[g].onError, Data(w[g].data.vals, w[g].data.errs + [e]), w[g].last, None);
  }

  /** A value sent in stands behind all that the body had received before, whatever the body does with it next. */
  lemma SentReceived(st: Store, g: nat, v: Value)
    requires Valid(st, []) && g < |st| && st[g].status.SUSPENDED? && st[g].frame.AtYield?
    ensures var f := st[g].frame;
            AnswersAt(f.onValue, Data(f.data.vals + [v], f.data.errs), SendIn(st, [], g, v).1)
  {
    SendTalks(st, [], g, v);
    ReplyToSend(Talks(st), g, v);
  }

  /** An exception thrown in stands behind all that the body had caught before, at a yield or while it delegates; a body
      that raises what it caught answers with it. */
  lemma ThrownReceived(st: Store, g: nat, e: Error)
    requires Valid(st, []) && g < |st| && st[g].status.SUSPENDED?
    ensures var f, r := st[g].frame, ThrowIn(st, [], g, e).1;
            && AnswersAt(f.onError, Data(f.data.vals, f.data.errs + [e]), r)
            && (f.onError == Raise(LAST_ERROR) ==> r == Err(e))
  {
    ThrowTalks(st, [], g, e);
    ReplyToThrow(Talks(st), g, e);
  }

  /** Before its start and after its end a generator gives an exception back, and is as it was. */
  lemma ThrownBack(st: Store, stack: seq<nat>, g: nat, e: Error)
    requires Valid(st, stack) && g < |st| && (st[g].status.PENDING? || st[g].status.DONE?)
    ensures ThrowIn(st, stack, g, e) == (st, Err(e))
  {
  }

  // -------------------------------------------------------------------------------------------
  // From other generators
  // -------------------------------------------------------------------------------------------

  /** The answer `a` of a call, in a body that returns what `f` makes of a value and raises what `h` makes of an
      exception, both behind what it had received before. */
  function Relayed(a: Result, d: Data, f: Data -> Value, h: Data -> Error): Result {
    match a
    case Ok(u) => Ok(f(Data(d.vals + [u], d.errs)))
    case Err(x) => Err(h(Data(d.vals, d.errs + [x])))
    case Crash => Crash
  }

  lemma RelayedLast(a: Result, d: Data)
    ensures Relayed(a, d, LAST_VALUE, LAST_ERROR) == a
  {
  }

  /** A body that calls another generator, or itself, returns what it makes of the value, and raises what it makes of
      the exception. */
  predicate Relays(b: Body, n: nat) {
    (b.Next? || b.Throw?) && b.target < n && b.onValue.Return? && b.onError.Raise?
  }

  function CallIn(b: Body, d: Data): Input
    requires b.Next? || b.Throw?
  {
    if b.Next? then Send(b.value(d)) else Inject(b.error(d))
  }

  lemma HearRelays(w: World, g: nat, a: Result, x: Body, y: Body, d: Data, last: Value, sent: Option<Value>, bound: nat)
    requires g < |w| && Worths(w) <= bound && x.Return? && y.Raise?
    ensures Shown(Hear(w, g, a, x, y, d, last, sent, bound)[g]) == Relayed(a, d, x.value, y.error)
  {
  }

  lemma SpeakRelays(w: World, g: nat, b: Body, d: Data, last: Value, sent: Option<Value>)
    requires g < |w| && Relays(b, |w|)
    ensures Shown(Speak(w, g, b, d, last, sent)[g])
         == Relayed(Reply(w, b.target, CallIn(b, d)).1, d, b.onValue.value, b.onError.error)
  {
    var r := Reply(w, b.target, CallIn(b, d));
    HearRelays(r.0, g, r.1, b.onValue, b.onError, d, last, sent, Worths(w));
  }

  lemma ReplyToStart(w: World, g: nat, v: Value)
    requires g < |w| && w[g].Unstarted?
    ensures Reply(w, g, Send(v)).1
         == Shown(Speak(w[g := Speaking], g, w[g].b, Data([], []), w[g].last, Some(v))[g])
  {
  }

  lemma StartRelays(st: Store, g: nat, v: Value)
    requires Valid(st, []) && g < |st| && st[g].status.PENDING? && Relays(st[g].executor, |st|)
    ensures var b := st[g].executor;
            SendIn(st, [], g, v).1 == Relayed(Reply(Talks(st)[g := Speaking], b.target, CallIn(b, Data([], []))).1,
                                              Data([], []), b.onValue.value, b.onError.error)
  {
    SendTalks(st, [], g, v);
    ReplyToStart(Talks(st), g, v);
    SpeakRelays(Talks(st)[g := Speaking], g, st[g].executor, Data([], []), st[g].outVal, Some(v));
  }

  /** The call of the other generator, made from inside `g`. */
  lemma InnerTalks(st: Store, g: nat, v: Value, t: nat, i: Input)
    requires Valid(st, []) && g < |st| && st[g].status.PENDING? && t < |st|
    ensures var st1 := Enter(st, [], g, Some(v));
            Valid(st1, [g]) && Give(st1, [g], t, i).1 == Reply(Talks(st)[g := Speaking], t, i).1
  {
    EnterOk(st, [], g, Some(v));
    assert [] + [g] == [g];
    SwitchTalks(st, [], g, Some(v));
    GiveTalks(Enter(st, [], g, Some(v)), [g], t, i);
  }

  /** What a body gets from `next` or `_throw` on another generator - or on itself, which refuses - is what that one
      answers; a body that returns the value, or raises the exception, answers the same. */
  lemma InnerAnswerReceived(st: Store, g: nat, v: Value)
    requires Valid(st, []) && g < |st| && st[g].status.PENDING? && Relays(st[g].executor, |st|)
    ensures var b, st1 := st[g].executor, Enter(st, [], g, Some(v));
            && Valid(st1, [g])
            && var inner := Give(st1, [g], b.target, CallIn(b, Data([], []))).1;
               && SendIn(st, [], g, v).1 == Relayed(inner, Data([], []), b.onValue.value, b.onError.error)
               && (b.onValue == Body.Return(LAST_VALUE) && b.onError == Raise(LAST_ERROR) ==>
                     SendIn(st, [], g, v).1 == inner)
  {
    var b, st1 := st[g].executor, Enter(st, [], g, Some(v));
    StartRelays(st, g, v);
    InnerTalks(st, g, v, b.target, CallIn(b, Data([], [])));
    RelayedLast(Give(st1, [g], b.target, CallIn(b, Data([], []))).1, Data([], []));
  }

  /** An exception that the inner generator of `yield_from` raises reaches the outer body. */
  lemma InnerErrorReceived(w: World, g: nat, v: Value, t: nat, x: Body, y: Body, d: Data)
    requires g < |w| && t < |w| && Delegates(w[g], v, t, x, y, d) && !w[g := Speaking][t].Over?
    requires y.Raise? && Reply(w[g := Speaking], t, Send(v)).1.Err?
    ensures var e := Reply(w[g := Speaking], t, Send(v)).1.error;
            && Reply(w, g, Send(v)).1 == Err(y.error(Data(d.vals, d.errs + [e])))
            && (y == Raise(LAST_ERROR) ==> Reply(w, g, Send(v)).1 == Err(e))
  {
    DelegateSend(w, g, v, t, x, y, d);
  }
}
