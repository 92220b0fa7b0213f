/** What the calls of a socket answer, told from the kernel's answers, and exactly when its status changes. */
module SocketAnswers {
  import opened Sockets

  // -------------------------------------------------------------------------------------------
  // The answers of `write` and of the writable event
  // -------------------------------------------------------------------------------------------

  predicate AllTake(kernel: seq<Reply>) {
    forall i :: 0 <= i < |kernel| ==> kernel[i].Takes?
  }

  /** How far the answers `takes` bring a loop that offers `round` bytes at a time. */
  function Sent(size: nat, offset: nat, round: nat, takes: seq<Reply>): (n: nat)
    requires offset <= size && AllTake(takes)
    ensures offset <= n <= size
    decreases |takes|
  {
    if takes == [] then offset
    else Sent(size, offset + Count(takes[0].n, Min(round, size - offset)), round, takes[1..])
  }

  /** The first answer takes the loop one step on. */
  lemma SentStep(size: nat, offset: nat, round: nat, kernel: seq<Reply>, k: nat)
    requires offset <= size && 0 < k <= |kernel| && AllTake(kernel[..k])
    ensures var next := offset + Count(kernel[0].n, Min(round, size - offset));
            && next <= size && AllTake(kernel[1..][..k - 1])
            && Sent(size, offset, round, kernel[..k]) == Sent(size, next, round, kernel[1..][..k - 1])
  {
    assert kernel[..k][0] == kernel[0] && kernel[..k][1..] == kernel[1..][..k - 1];
  }

  lemma AllTakeStep(kernel: seq<Reply>, k: nat)
    requires k < |kernel| && kernel[0].Takes? && AllTake(kernel[1..][..k])
    ensures AllTake(kernel[..k + 1])
  {
    assert kernel[..k + 1] == [kernel[0]] + kernel[1..][..k];
  }

  lemma FirstTakes(kernel: seq<Reply>, k: nat)
    requires 0 < k <= |kernel| && AllTake(kernel[..k])
    ensures kernel[0].Takes?
  {
    assert kernel[..k][0] == kernel[0];
  }

  /** Answer number `k` is a hard error, and a loop comes to it: all answers before take bytes, and something is left
      to write. */
  predicate ErrorAt(size: nat, offset: nat, round: nat, kernel: seq<Reply>, k: nat)
    requires offset <= size
  {
    && k < |kernel| && kernel[k].Fails? && AllTake(kernel[..k])
    && Sent(size, offset, round, kernel[..k]) < size
  }

  lemma ErrorStep(size: nat, offset: nat, round: nat, kernel: seq<Reply>, k: nat)
    requires offset <= size && kernel != [] && kernel[0].Takes?
    ensures var next := offset + Count(kernel[0].n, Min(round, size - offset));
            ErrorAt(size, offset, round, kernel, k + 1) <==> ErrorAt(size, next, round, kernel[1..], k)
  {
    if k + 1 < |kernel| {
      if AllTake(kernel[1..][..k]) { AllTakeStep(kernel, k); }
      if AllTake(kernel[..k + 1]) { SentStep(size, offset, round, kernel, k + 1); }
    }
  }

  /** Some answer is. */
  ghost predicate MeetsError(size: nat, offset: nat, round: nat, kernel: seq<Reply>)
    requires offset <= size
  {
    exists k: nat :: ErrorAt(size, offset, round, kernel, k)
  }

  lemma MeetsStep(size: nat, offset: nat, round: nat, kernel: seq<Reply>)
    requires offset <= size && kernel != [] && kernel[0].Takes?
    ensures var next := offset + Count(kernel[0].n, Min(round, size - offset));
            MeetsError(size, offset, round, kernel) <==> MeetsError(size, next, round, kernel[1..])
  {
    var next := offset + Count(kernel[0].n, Min(round, size - offset));
    if k: nat :| ErrorAt(size, offset, round, kernel, k) {
      assert k > 0;
      ErrorStep(size, offset, round, kernel, k - 1);
    }
    if k: nat :| ErrorAt(size, next, round, kernel[1..], k) { ErrorStep(size, offset, round, kernel, k); }
  }

  lemma MeetsFirst(size: nat, offset: nat, round: nat, kernel: seq<Reply>)
    requires offset <= size && (kernel == [] || !kernel[0].Takes?)
    ensures MeetsError(size, offset, round, kernel) <==> offset < size && kernel != [] && kernel[0].Fails?
  {
    assert kernel[..0] == [];
    if offset < size && kernel != [] && kernel[0].Fails? { assert ErrorAt(size, offset, round, kernel, 0); }
    forall k: nat | ErrorAt(size, offset, round, kernel, k) ensures k == 0 {
      if k > 0 { FirstTakes(kernel, k); }
    }
  }

  /** Where nothing is left to write, no error is met. */
  lemma MeetsNothing(size: nat, round: nat, kernel: seq<Reply>)
    ensures !MeetsError(size, size, round, kernel)
  {
  }

  lemma {:induction false} FlushFailsIff(size: nat, offset: nat, kernel: seq<Reply>)
    requires offset <= size
    ensures FlushLoop(size, offset, kernel).1.Failed? <==> MeetsError(size, offset, SOCK_BUFFER_SIZE, kernel)
    decreases |kernel|
  {
    if offset == size {
      MeetsNothing(size, SOCK_BUFFER_SIZE, kernel);
    } else if kernel == [] || !kernel[0].Takes? {
      MeetsFirst(size, offset, SOCK_BUFFER_SIZE, kernel);
    } else {
      MeetsStep(size, offset, SOCK_BUFFER_SIZE, kernel);
      FlushFailsIff(size, offset + Count(kernel[0].n, Min(size - offset, SOCK_BUFFER_SIZE)), kernel[1..]);
    }
  }

  /** `write` makes its first call even if there is nothing to write. */
  lemma {:induction false} WriteFailsIff(size: nat, offset: nat, kernel: seq<Reply>)
    requires offset <= size
    ensures WriteLoop(size, offset, kernel).1.Failed? <==>
              || MeetsError(size, offset, N_BYTES_PER_ROUND, kernel)
              || (offset == size && kernel != [] && kernel[0].Fails?)
    decreases |kernel|
  {
    if kernel == [] || !kernel[0].Takes? {
      MeetsFirst(size, offset, N_BYTES_PER_ROUND, kernel);
    } else {
      var next := offset + Count(kernel[0].n, Min(N_BYTES_PER_ROUND, size - offset));
      MeetsStep(size, offset, N_BYTES_PER_ROUND, kernel);
      if next == size { MeetsNothing(size, N_BYTES_PER_ROUND, kernel[1..]); }
      else { WriteFailsIff(size, next, kernel[1..]); }
    }
  }

  /** The first `k` answers, at least one, take all that there is. */
  predicate TakesAllIn(size: nat, offset: nat, kernel: seq<Reply>, k: nat)
    requires offset <= size
  {
    0 < k <= |kernel| && AllTake(kernel[..k]) && Sent(size, offset, N_BYTES_PER_ROUND, kernel[..k]) == size
  }

  lemma {:induction false} WriteCompletesIff(size: nat, offset: nat, kernel: seq<Reply>)
    requires offset <= size
    ensures WriteLoop(size, offset, kernel).1.Completed? <==> exists k :: TakesAllIn(size, offset, kernel, k)
    decreases |kernel|
  {
    if kernel != [] && kernel[0].Takes? {
      var next := offset + Count(kernel[0].n, Min(N_BYTES_PER_ROUND, size - offset));
      if next >= size {
        AllTakeStep(kernel, 0);
        SentStep(size, offset, N_BYTES_PER_ROUND, kernel, 1);
        assert TakesAllIn(size, offset, kernel, 1);
      } else {
        WriteCompletesIff(size, next, kernel[1..]);
        if k: nat :| TakesAllIn(size, offset, kernel, k) {
          SentStep(size, offset, N_BYTES_PER_ROUND, kernel, k);
          assert TakesAllIn(size, next, kernel[1..], k - 1);
        }
        if k: nat :| TakesAllIn(size, next, kernel[1..], k) {
          AllTakeStep(kernel, k);
          SentStep(size, offset, N_BYTES_PER_ROUND, kernel, k + 1);
          assert TakesAllIn(size, offset, kernel, k + 1);
        }
      }
    } else {
      forall k: nat | TakesAllIn(size, offset, kernel, k) ensures false { FirstTakes(kernel, k); }
    }
  }

  /** What `write` answers, on any socket: it throws if and only if the kernel answers with a hard error while
      there is something left to write, or at once if there is nothing to write; it is resolved if and only if
      the kernel has taken all; otherwise there is a promise to wait for. */
  lemma WriteAnswerIff(s: Sock, data: string, kernel: seq<Reply>)
    ensures var answer, size := Write(s, data, kernel).1, |s.buffer| + |data|;
            && (answer.Thrown? <==>
                  || MeetsError(size, 0, N_BYTES_PER_ROUND, kernel)
                  || (size == 0 && kernel != [] && kernel[0].Fails?))
            && (answer.Resolved? <==> exists k :: TakesAllIn(size, 0, kernel, k))
            && (answer.Promised? <==> !answer.Thrown? && !answer.Resolved?)
  {
    WriteFailsIff(|s.buffer| + |data|, 0, kernel);
    WriteCompletesIff(|s.buffer| + |data|, 0, kernel);
  }

  lemma {:induction false} LoopEmpties(size: nat, offset: nat, kernel: seq<Reply>)
    requires offset <= size && Fails !in kernel
    ensures var r := WriteLoop(size, offset, kernel);
            r.1.Completed? <==> r.0 == size && kernel != [] && kernel[0].Takes?
    decreases |kernel|
  {
    if kernel != [] && kernel[0].Takes? {
      var next := offset + Count(kernel[0].n, Min(N_BYTES_PER_ROUND, size - offset));
      if next < size { LoopEmpties(size, next, kernel[1..]); }
    }
  }

  /** Without hard errors `write` does not throw, and it is resolved if and only if its first call took something
      - nothing, if there was nothing - and the buffer is empty afterwards. */
  lemma WriteAnswerByBuffer(s: Sock, data: string, kernel: seq<Reply>)
    requires Fails !in kernel
    ensures var r := Write(s, data, kernel);
            && !r.1.Thrown?
            && (r.1.Resolved? <==> r.0.buffer == [] && kernel != [] && kernel[0].Takes?)
  {
    var size := |s.buffer + data|;
    WriteNotFailed(size, 0, kernel);
    LoopEmpties(size, 0, kernel);
    assert |Write(s, data, kernel).0.buffer| == size - WriteLoop(size, 0, kernel).0;
  }

  /** The writable event throws if and only if the socket is not CONNECTING and the kernel answers with a hard error
      while there is something left to write. */
  lemma WritableThrowsIff(s: Sock, kernel: seq<Reply>, connected: bool)
    ensures Writable(s, kernel, connected).1 <==>
              !s.status.CONNECTING? && MeetsError(|s.buffer|, 0, SOCK_BUFFER_SIZE, kernel)
  {
    FlushFailsIff(|s.buffer|, 0, kernel);
  }

  // -------------------------------------------------------------------------------------------
  // Status
  // -------------------------------------------------------------------------------------------

  /** What `connect` answers: a promise that waits if and only if the connection is under way from now on, an exception
      if and only if an IDLE socket is refused, and a resolved promise on a socket that is connected now - or that
      was not IDLE and is left as it is. */
  lemma ConnectAnswerIff(s: Sock, c: Connection)
    ensures var r := Connect(s, c);
            && (r.1.Waits? <==> s.status.IDLE? && r.0.status.CONNECTING? && r.0.connectWaits)
            && (r.1.Refusal? <==> s.status.IDLE? && c.Refused?)
            && (r.1.Refusal? || !s.status.IDLE? ==> r.0 == s)
            && (r.1.Connected? && s.status.IDLE? ==> r.0 == s.(status := CONNECTED))
            && (r.1.Connected? <==> !s.status.IDLE? || c.Immediate?)
  {
  }

  /** Exactly which events bring a socket into a status that it was not in. */
  lemma StatusChangesIff(s: Sock, e: Event)
    ensures var t := Apply(s, e).status;
            && !(t.IDLE? && t != s.status)
            && (t.CONNECTING? && t != s.status <==> s.status.IDLE? && e == DoConnect(InProgress))
            && (t.CONNECTED? && t != s.status <==>
                  || (s.status.IDLE? && e == DoConnect(Immediate))
                  || (s.status.CONNECTING? && e.DoWritable? && e.connected))
            && (t.HALF_CLOSED? && t != s.status <==>
                  || (e == DoReadable(Eof) && !s.status.HALF_CLOSED?)
                  || (s.status.CONNECTED? && e.DoClose? && !(s.open && e.fails)))
            && (t.CLOSED? && t != s.status <==> Closes(s, e))
  {
  }

  /** The second half of a connection ends: its end of the stream is found, or `close` gives up a descriptor that
      the peer has left. */
  predicate Closes(s: Sock, e: Event) {
    s.status.HALF_CLOSED? && (e == DoReadable(Eof) || (s.open && e == DoClose(false)))
  }

  /** `close` throws if and only if the kernel refuses it on a socket that is connected, or half of which is, and has
      its descriptor; then it changes nothing. */
  lemma CloseThrowsIff(s: Sock, fails: bool)
    ensures var r := Close(s, fails);
            && (r.1 <==> fails && s.open && (s.status.CONNECTED? || s.status.HALF_CLOSED?))
            && (r.1 ==> r.0 == s)
            && (r.0.open != s.open <==> s.status.CONNECTED? && s.open && !fails)
  {
  }

  /** The readable event throws if and only if the kernel answers with an error; then it changes nothing. */
  lemma ReadableThrowsIff(s: Sock, a: Arrival)
    ensures (Readable(s, a).1 <==> a.Broken?) && (a != Eof ==> Readable(s, a).0 == s)
  {
  }

  /** Event `k` closed the socket, and no end of the stream was found after it. */
  predicate ClosedSince(es: seq<Event>, k: nat) {
    && k < |es| && Closes(Run(es[..k]), es[k])
    && forall j :: k < j < |es| ==> es[j] != DoReadable(Eof)
  }

  lemma ClosedFront(es: seq<Event>, front: seq<Event>, k: nat)
    requires es != [] && front == es[..|es| - 1] && k < |front|
    ensures ClosedSince(es, k) <==> ClosedSince(front, k) && es[|es| - 1] != DoReadable(Eof)
  {
    assert es[..k] == front[..k] && es[k] == front[k];
    assert forall j :: 0 <= j < |front| ==> front[j] == es[j];
  }

  /** A socket is CLOSED if and only if some event found it HALF_CLOSED and ended the other half, and no end of the
      stream was reported after that; so it stays CLOSED under everything else. */
  lemma {:induction false} ClosedIff(es: seq<Event>)
    ensures Run(es).status.CLOSED? <==> exists k :: ClosedSince(es, k)
  {
    if es != [] {
      ClosedIff(es[..|es| - 1]);
      ClosedLast(es, es[..|es| - 1]);
      ClosedStep(Run(es[..|es| - 1]), es[|es| - 1]);
    }
  }

  lemma ClosedStep(s: Sock, e: Event)
    ensures Apply(s, e).status.CLOSED? <==> Closes(s, e) || (s.status.CLOSED? && e != DoReadable(Eof))
  {
  }

  lemma ClosedLast(es: seq<Event>, front: seq<Event>)
    requires es != [] && front == es[..|es| - 1]
    ensures (exists k :: ClosedSince(es, k)) <==>
              || Closes(Run(front), es[|es| - 1])
              || ((exists k :: ClosedSince(front, k)) && es[|es| - 1] != DoReadable(Eof))
  {
    assert ClosedSince(es, |es| - 1) <==> Closes(Run(front), es[|es| - 1]);
    if k: nat :| ClosedSince(front, k) { ClosedFront(es, front, k); }
    if k: nat :| ClosedSince(es, k) {
      if k < |front| { ClosedFront(es, front, k); }
    }
  }

  /** After a peer has closed its side, `close` ends the connection. */
  lemma CloseAfterEnd()
    ensures Run([DoConnect(Immediate), DoReadable(Eof), DoClose(false)]).status == CLOSED
  {
    var e0, e1, e2 := DoConnect(Immediate), DoReadable(Eof), DoClose(false);
    assert [e0, e1, e2][..2] == [e0, e1] && [e0, e1][..1] == [e0] && [e0][..0] == [];
    assert Run([e0]) == Apply(IDLE_SOCKET, e0);
    assert Run([e0, e1]) == Apply(Run([e0]), e1);
    assert Run([e0, e1, e2]) == Apply(Run([e0, e1]), e2);
  }
}
