/** The write side of a socket: a buffer, a byte counter and a queue of promises with byte targets,
    driven by `write` calls and by writable events, whatever the kernel answers; and its status, which
    connecting, reading and closing change as well. */
module Sockets {

  datatype Status = IDLE | CONNECTING | CONNECTED | HALF_CLOSED | CLOSED

  /** An answer of the kernel to one call of `write`: it takes some bytes, blocks, or fails. */
  datatype Reply = Takes(n: nat) | Again | Fails

  /** A queued write promise; `id` stands for its context. */
  datatype Item = Item(target: nat, id: nat)

  /** Socket data.  `connectWaits` says that a promise of `connect` waits for the connect event, and `open`
      that there is a file descriptor.  The last three fields are history: the bytes the kernel took, all
      bytes passed to `write`, and the byte target of every write promise that was not completed at once. */
  datatype Sock = Sock(status: Status, connectWaits: bool, open: bool, buffer: string, bytesWritten: nat,
                       queue: seq<Item>, wire: string, accepted: string, targets: seq<nat>)

  const IDLE_SOCKET := Sock(IDLE, false, true, [], 0, [], [], [], [])

  const N_BYTES_PER_ROUND := 4096
  const SOCK_BUFFER_SIZE := 1024

  function Min(a: nat, b: nat): nat {
    if a < b then a else b
  }

  /** The bytes taken when `len` are offered: at least one of a nonempty offer. */
  function Count(n: nat, len: nat): (c: nat)
    ensures c <= len && (len > 0 ==> c > 0) && (0 < n <= len ==> c == n) && (len < n ==> c == len)
  {
    if len > 0 && n == 0 then 1 else Min(n, len)
  }

  /** How a writing loop ended. */
  datatype End = Completed | Blocked | Failed

  /** The loop of `write` from position `offset` of a buffer of `size` bytes; `kernel` are the answers still
      to come, after which the kernel blocks.  It writes before it looks whether anything is left. */
  function WriteLoop(size: nat, offset: nat, kernel: seq<Reply>): (r: (nat, End))
    requires offset <= size
    ensures offset <= r.0 <= size && (r.1.Completed? ==> r.0 == size)
    decreases |kernel|
  {
    if kernel == [] || kernel[0].Again? then (offset, Blocked)
    else if kernel[0].Fails? then (offset, Failed)
    else
      var offset' := offset + Count(kernel[0].n, Min(N_BYTES_PER_ROUND, size - offset));
      if offset' >= size then (offset', Completed) else WriteLoop(size, offset', kernel[1..])
  }

  /** The loop of the writable event.  It looks first. */
  function FlushLoop(size: nat, offset: nat, kernel: seq<Reply>): (r: (nat, End))
    requires offset <= size
    ensures offset <= r.0 <= size && (r.1.Completed? <==> r.0 == size)
    decreases |kernel|
  {
    if offset >= size then (offset, Completed)
    else if kernel == [] || kernel[0].Again? then (offset, Blocked)
    else if kernel[0].Fails? then (offset, Failed)
    else
      FlushLoop(size, offset + Count(kernel[0].n, Min(size - offset, SOCK_BUFFER_SIZE)), kernel[1..])
  }

  /** What `write` returns: a resolved promise, the promise with number `id`, or an exception. */
  datatype Written = Resolved | Promised(id: nat) | Thrown

  /** The bytes `buffer[..offset]` are gone; the counter and the buffer are brought up to date. */
  function Commit(s: Sock, offset: nat): Sock
    requires offset <= |s.buffer|
  {
    s.(wire := s.wire + s.buffer[..offset], bytesWritten := s.bytesWritten + offset, buffer := s.buffer[offset..])
  }

  function Append(s: Sock, data: string): Sock {
    s.(buffer := s.buffer + data, accepted := s.accepted + data)
  }

  /** The end of `write` when its loop has come to `r`. */
  function WriteEnd(s: Sock, r: (nat, End)): (Sock, Written)
    requires r.0 <= |s.buffer|
  {
    match r.1
    case Failed => (s.(wire := s.wire + s.buffer[..r.0]), Thrown)
    case Completed => (Commit(s, r.0), Resolved)
    case Blocked =>
      var s1 := Commit(s, r.0);
      var target := s1.bytesWritten + |s1.buffer|;
      (s1.(queue := s1.queue + [Item(target, |s1.targets|)], targets := s1.targets + [target]), Promised(|s1.targets|))
  }

  function Write(s: Sock, data: string, kernel: seq<Reply>): (Sock, Written) {
    var s1 := Append(s, data);
    WriteEnd(s1, WriteLoop(|s1.buffer|, 0, kernel))
  }

  /** The queue behind the promises whose target is reached. */
  function Unreached(queue: seq<Item>, written: nat): seq<Item> {
    if queue == [] || queue[0].target > written then queue else Unreached(queue[1..], written)
  }

  /** The writable event; `connected` is the outcome of a connection under way. */
  function Writable(s: Sock, kernel: seq<Reply>, connected: bool): (Sock, bool) {
    if s.status.CONNECTING? then
      // on an error `close` is called, which does nothing while the socket is CONNECTING
      (if connected then s.(status := CONNECTED, connectWaits := false) else s, false)
    else
      var r := FlushLoop(|s.buffer|, 0, kernel);
      if r.1.Failed? then (s.(wire := s.wire + s.buffer[..r.0]), true)
      else
        var s1 := Commit(s, r.0);
        (s1.(queue := Unreached(s1.queue, s1.bytesWritten)), false)
  }

  datatype Connection = Immediate | InProgress | Refused

  /** What `connect` returns: a resolved promise, one that the connect event resolves, or an exception. */
  datatype Attempt = Connected | Waits | Refusal

  function Connect(s: Sock, c: Connection): (Sock, Attempt) {
    if !s.status.IDLE? then (s, Connected)
    else match c
      case Immediate => (s.(status := CONNECTED), Connected)
      case InProgress => (s.(status := CONNECTING, connectWaits := true), Waits)
      case Refused => (s, Refusal)
  }

  /** How the reading loop of the readable event ends: no more data, the end of the stream, or an error. */
  datatype Arrival = NoMore | Eof | Broken

  /** The readable event as far as the status goes; the flag says that it throws.  The reactor handles it before
      the writable event where the kernel reports both at once. */
  function Readable(s: Sock, a: Arrival): (Sock, bool) {
    match a
    case NoMore => (s, false)
    case Eof => (s.(status := if s.status.HALF_CLOSED? then CLOSED else HALF_CLOSED), false)
    case Broken => (s, true)
  }

  /** `close`; `fails` is the kernel's answer, and the flag says that it throws. */
  function Close(s: Sock, fails: bool): (Sock, bool) {
    if !s.status.CONNECTED? && !s.status.HALF_CLOSED? then (s, false)
    else if s.open && fails then (s, true)
    else if s.status.CONNECTED? then (s.(open := false, status := HALF_CLOSED), false)
    else if s.open then (s.(status := CLOSED), false)
    else (s, false)
  }

  // -------------------------------------------------------------------------------------------
  // Runs
  // -------------------------------------------------------------------------------------------

  datatype Event =
    | DoWrite(data: string, kernel: seq<Reply>)
    | DoWritable(kernel: seq<Reply>, connected: bool)
    | DoConnect(c: Connection)
    | DoReadable(a: Arrival)
    | DoClose(fails: bool)

  function Apply(s: Sock, e: Event): Sock {
    match e
    case DoWrite(data, kernel) => Write(s, data, kernel).0
    case DoWritable(kernel, connected) => Writable(s, kernel, connected).0
    case DoConnect(c) => Connect(s, c).0
    case DoReadable(a) => Readable(s, a).0
    case DoClose(fails) => Close(s, fails).0
  }

  function Run(es: seq<Event>): Sock {
    if es == [] then IDLE_SOCKET else Apply(Run(es[..|es| - 1]), es[|es| - 1])
  }

  /** Bytes that an event put on the wire before the kernel failed, and that stay in the buffer. */
  function Resent(s: Sock, e: Event): nat {
    match e
    case DoWrite(data, kernel) =>
      var r := WriteLoop(|s.buffer + data|, 0, kernel);
      if r.1.Failed? then r.0 else 0
    case DoWritable(kernel, _) =>
      var r := FlushLoop(|s.buffer|, 0, kernel);
      if !s.status.CONNECTING? && r.1.Failed? then r.0 else 0
    case _ => 0
  }

  function TotalResent(es: seq<Event>): nat {
    if es == [] then 0
    else TotalResent(es[..|es| - 1]) + Resent(Run(es[..|es| - 1]), es[|es| - 1])
  }

  /** The buffer holds what was accepted and not yet counted as written. */
  predicate Counted(s: Sock) {
    s.bytesWritten <= |s.accepted| && s.buffer == s.accepted[s.bytesWritten..]
  }

  /** Targets never decrease and never exceed the bytes accepted. */
  ghost predicate Ordered(targets: seq<nat>, bound: nat) {
    && (forall i, j :: 0 <= i < j < |targets| ==> targets[i] <= targets[j])
    && (forall i :: 0 <= i < |targets| ==> targets[i] <= bound)
  }

  /** The queue holds the promises with the latest numbers, in order, and all others are reached. */
  ghost predicate Waiting(queue: seq<Item>, targets: seq<nat>, written: nat) {
    && |queue| <= |targets|
    && (forall i :: 0 <= i < |queue| ==>
          queue[i] == Item(targets[|targets| - |queue| + i], |targets| - |queue| + i))
    && (forall i :: 0 <= i < |targets| - |queue| ==> targets[i] <= written)
  }

  /** The counter, the buffer and the promises, failures or not. */
  ghost predicate Inv(s: Sock) {
    Counted(s) && Ordered(s.targets, |s.accepted|) && Waiting(s.queue, s.targets, s.bytesWritten)
  }

  lemma {:induction false} UnreachedSuffix(queue: seq<Item>, written: nat)
    ensures var q := Unreached(queue, written);
            && |q| <= |queue| && q == queue[|queue| - |q|..]
            && (forall i :: 0 <= i < |queue| - |q| ==> queue[i].target <= written)
            && (q != [] ==> q[0].target > written)
  {
    if queue != [] && queue[0].target <= written {
      UnreachedSuffix(queue[1..], written);
      var q := Unreached(queue, written);
      assert queue[1..][|queue| - 1 - |q|..] == queue[|queue| - |q|..];
      forall i | 0 <= i < |queue| - |q| ensures queue[i].target <= written {
        if i > 0 { assert queue[1..][i - 1] == queue[i]; }
      }
    }
  }

  lemma CommitCounted(s: Sock, offset: nat)
    requires Counted(s) && offset <= |s.buffer|
    ensures Counted(Commit(s, offset))
  {
    assert s.accepted[s.bytesWritten..][offset..] == s.accepted[s.bytesWritten + offset..];
  }

  lemma AppendCounted(s: Sock, data: string)
    requires Counted(s)
    ensures Counted(Append(s, data))
  {
    assert s.accepted[s.bytesWritten..] + data == (s.accepted + data)[s.bytesWritten..];
  }

  lemma PushWaiting(queue: seq<Item>, targets: seq<nat>, written: nat, target: nat)
    requires Waiting(queue, targets, written)
    ensures Waiting(queue + [Item(target, |targets|)], targets + [target], written)
  {
    var q, ts := queue + [Item(target, |targets|)], targets + [target];
    var n := |targets| - |queue|;
    forall i | 0 <= i < |q| ensures q[i] == Item(ts[n + i], n + i) {
      if i < |queue| { assert queue[i] == Item(targets[n + i], n + i); }
    }
  }

  lemma WriteInv(s: Sock, data: string, kernel: seq<Reply>)
    requires Inv(s)
    ensures Inv(Write(s, data, kernel).0)
  {
    AppendCounted(s, data);
    WriteEndInv(Append(s, data), WriteLoop(|s.buffer + data|, 0, kernel));
  }

  lemma WriteEndInv(s: Sock, r: (nat, End))
    requires Inv(s) && r.0 <= |s.buffer|
    ensures Inv(WriteEnd(s, r).0)
  {
    match r.1
    case Failed =>
    case Completed => CommitInv(s, r.0);
    case Blocked => BlockedInv(s, r.0);
  }

  lemma BlockedInv(s: Sock, offset: nat)
    requires Inv(s) && offset <= |s.buffer|
    ensures Inv(WriteEnd(s, (offset, Blocked)).0)
  {
    CommitInv(s, offset);
    PushInv(Commit(s, offset));
  }

  lemma CommitInv(s: Sock, offset: nat)
    requires Inv(s) && offset <= |s.buffer|
    ensures Inv(Commit(s, offset))
  {
    CommitCounted(s, offset);
  }

  /** A write that blocks queues a promise for all that was accepted. */
  lemma PushInv(s: Sock)
    requires Inv(s)
    ensures var target := s.bytesWritten + |s.buffer|;
            Inv(s.(queue := s.queue + [Item(target, |s.targets|)], targets := s.targets + [target]))
  {
    PushWaiting(s.queue, s.targets, s.bytesWritten, s.bytesWritten + |s.buffer|);
  }

  lemma UnreachedWaiting(queue: seq<Item>, targets: seq<nat>, before: nat, written: nat)
    requires Waiting(queue, targets, before) && before <= written
    ensures Waiting(Unreached(queue, written), targets, written)
  {
    UnreachedSuffix(queue, written);
    var q := Unreached(queue, written);
    var n, m := |targets| - |queue|, |queue| - |q|;
    forall i | n <= i < n + m ensures targets[i] <= written {
      assert queue[i - n].target <= written;
    }
  }

  lemma WritableInv(s: Sock, kernel: seq<Reply>, connected: bool)
    requires Inv(s)
    ensures Inv(Writable(s, kernel, connected).0)
  {
    var r := FlushLoop(|s.buffer|, 0, kernel);
    CommitCounted(s, r.0);
    UnreachedWaiting(s.queue, s.targets, s.bytesWritten, s.bytesWritten + r.0);
  }

  lemma ApplyInv(s: Sock, e: Event)
    requires Inv(s)
    ensures Inv(Apply(s, e))
  {
    match e
    case DoWrite(data, kernel) => WriteInv(s, data, kernel);
    case DoWritable(kernel, connected) => WritableInv(s, kernel, connected);
    case _ =>
  }

  lemma {:induction false} RunInv(es: seq<Event>)
    ensures Inv(Run(es))
  {
    if es != [] {
      RunInv(es[..|es| - 1]);
      ApplyInv(Run(es[..|es| - 1]), es[|es| - 1]);
    }
  }

  /** One event puts on the wire what the counter moves by, and what a failure makes it send again; with no
      failure the wire stays the counted part of the accepted bytes. */
  predicate OnWire(s: Sock, resent: nat) {
    && |s.wire| == s.bytesWritten + resent
    && (resent == 0 ==> s.bytesWritten <= |s.accepted| && s.wire == s.accepted[..s.bytesWritten])
  }

  lemma CommitOnWire(s: Sock, offset: nat, resent: nat)
    requires Counted(s) && offset <= |s.buffer| && OnWire(s, resent)
    ensures OnWire(Commit(s, offset), resent)
  {
    assert s.accepted[..s.bytesWritten] + s.accepted[s.bytesWritten..][..offset]
        == s.accepted[..s.bytesWritten + offset];
  }

  lemma WriteOnWire(s: Sock, data: string, kernel: seq<Reply>, resent: nat)
    requires Inv(s) && OnWire(s, resent)
    ensures OnWire(Write(s, data, kernel).0, resent + Resent(s, DoWrite(data, kernel)))
  {
    AppendCounted(s, data);
    var s1 := Append(s, data);
    assert (s.accepted + data)[..s.bytesWritten] == s.accepted[..s.bytesWritten];
    var r := WriteLoop(|s1.buffer|, 0, kernel);
    CommitOnWire(s1, r.0, resent);
    assert s1.wire + s1.buffer[..0] == s1.wire;
  }

  lemma WritableOnWire(s: Sock, kernel: seq<Reply>, connected: bool, resent: nat)
    requires Inv(s) && OnWire(s, resent)
    ensures OnWire(Writable(s, kernel, connected).0, resent + Resent(s, DoWritable(kernel, connected)))
  {
    var r := FlushLoop(|s.buffer|, 0, kernel);
    CommitOnWire(s, r.0, resent);
    assert s.wire + s.buffer[..0] == s.wire;
  }

  lemma ApplyOnWire(s: Sock, e: Event, resent: nat)
    requires Inv(s) && OnWire(s, resent)
    ensures OnWire(Apply(s, e), resent + Resent(s, e))
  {
    match e
    case DoWrite(data, kernel) => WriteOnWire(s, data, kernel, resent);
    case DoWritable(kernel, connected) => WritableOnWire(s, kernel, connected, resent);
    case _ =>
  }

  lemma {:induction false} RunOnWire(es: seq<Event>)
    ensures OnWire(Run(es), TotalResent(es))
  {
    if es != [] {
      var before := es[..|es| - 1];
      RunInv(before);
      RunOnWire(before);
      ApplyOnWire(Run(before), es[|es| - 1], TotalResent(before));
    }
  }

  /** All that a run passes to `write`, one call after the other. */
  function Passed(es: seq<Event>): string {
    if es == [] then ""
    else Passed(es[..|es| - 1]) + match es[|es| - 1]
      case DoWrite(data, _) => data
      case _ => ""
  }

  lemma {:induction false} AcceptedIsPassed(es: seq<Event>)
    ensures Run(es).accepted == Passed(es)
  {
    if es != [] {
      AcceptedIsPassed(es[..|es| - 1]);
      AcceptedBy(Run(es[..|es| - 1]), es[|es| - 1]);
    }
  }

  lemma AcceptedBy(s: Sock, e: Event)
    ensures Apply(s, e).accepted == s.accepted + if e.DoWrite? then e.data else ""
  {
    assert s.accepted + "" == s.accepted;
  }

  /** Byte conservation.  Over any interleaving of writes, writable events and kernel answers, the wire is
      longer than the counter by exactly the bytes sent just before a failure.  So what is on the wire
      followed by the buffer is what was passed to `write` if and only if no kernel failure came after part
      of a buffer was sent, and that is also when the counter is the wire's length. */
  lemma ConservedIff(es: seq<Event>)
    ensures var s := Run(es);
            && |s.wire| == s.bytesWritten + TotalResent(es)
            && (s.wire + s.buffer == Passed(es) <==> TotalResent(es) == 0)
            && (s.bytesWritten == |s.wire| <==> TotalResent(es) == 0)
  {
    AcceptedIsPassed(es);
    RunInv(es);
    RunOnWire(es);
    Conserved(Run(es), TotalResent(es));
  }

  lemma Conserved(s: Sock, resent: nat)
    requires Counted(s) && OnWire(s, resent)
    ensures s.wire + s.buffer == s.accepted <==> resent == 0
  {
    assert s.accepted == s.accepted[..s.bytesWritten] + s.accepted[s.bytesWritten..];
    assert |s.wire + s.buffer| == |s.accepted| + resent;
  }

  predicate NeverFails(e: Event) {
    match e
    case DoWrite(_, kernel) => Fails !in kernel
    case DoWritable(kernel, _) => Fails !in kernel
    case _ => true
  }

  lemma {:induction false} WriteNotFailed(size: nat, offset: nat, kernel: seq<Reply>)
    requires offset <= size && Fails !in kernel
    ensures !WriteLoop(size, offset, kernel).1.Failed?
    decreases |kernel|
  {
    if kernel != [] && kernel[0].Takes? {
      WriteNotFailed(size, offset + Count(kernel[0].n, Min(N_BYTES_PER_ROUND, size - offset)), kernel[1..]);
    }
  }

  lemma {:induction false} FlushNotFailed(size: nat, offset: nat, kernel: seq<Reply>)
    requires offset <= size && Fails !in kernel
    ensures !FlushLoop(size, offset, kernel).1.Failed?
    decreases |kernel|
  {
    if offset < size && kernel != [] && kernel[0].Takes? {
      FlushNotFailed(size, offset + Count(kernel[0].n, Min(size - offset, SOCK_BUFFER_SIZE)), kernel[1..]);
    }
  }

  lemma {:induction false} NothingResent(es: seq<Event>)
    requires forall i :: 0 <= i < |es| ==> NeverFails(es[i])
    ensures TotalResent(es) == 0
  {
    if es != [] {
      var s, e := Run(es[..|es| - 1]), es[|es| - 1];
      NothingResent(es[..|es| - 1]);
      assert NeverFails(e);
      match e
      case DoWrite(data, kernel) => WriteNotFailed(|s.buffer + data|, 0, kernel);
      case DoWritable(kernel, _) => FlushNotFailed(|s.buffer|, 0, kernel);
      case _ =>
    }
  }

  /** Byte conservation, read off the kernel's answers: if none of them is a hard error, what is on the wire
      followed by the buffer is what was passed to `write`, and the counter is the wire's length. */
  lemma Conservation(es: seq<Event>)
    requires forall i :: 0 <= i < |es| ==> NeverFails(es[i])
    ensures var s := Run(es);
            s.wire + s.buffer == Passed(es) && s.bytesWritten == |s.wire|
  {
    NothingResent(es);
    ConservedIff(es);
  }

  /** What is there to send when an event happens. */
  function Offered(s: Sock, e: Event): string {
    match e
    case DoWrite(data, _) => s.buffer + data
    case DoWritable(_, _) => s.buffer
    case _ => ""
  }

  /** Failure or not, what an event puts on the wire is the front of what is there to send: as many bytes as the counter
      moves by, and those that will be sent again. */
  lemma WireIsFront(s: Sock, e: Event)
    ensures var s' := Apply(s, e);
            && s.bytesWritten <= s'.bytesWritten
            && s'.bytesWritten - s.bytesWritten + Resent(s, e) <= |Offered(s, e)|
            && s'.wire == s.wire + Offered(s, e)[..s'.bytesWritten - s.bytesWritten + Resent(s, e)]
  {
    assert s.wire + "" == s.wire;
    match e
    case DoWrite(data, kernel) => WriteWire(Append(s, data), WriteLoop(|s.buffer + data|, 0, kernel));
    case DoWritable(kernel, connected) => FlushWire(s, kernel, connected);
    case _ =>
  }

  lemma WriteWire(s: Sock, r: (nat, End))
    requires r.0 <= |s.buffer|
    ensures var s' := WriteEnd(s, r).0;
            && s'.wire == s.wire + s.buffer[..r.0]
            && s'.bytesWritten == s.bytesWritten + if r.1.Failed? then 0 else r.0
  {
  }

  lemma FlushWire(s: Sock, kernel: seq<Reply>, connected: bool)
    ensures var s', r := Writable(s, kernel, connected).0, FlushLoop(|s.buffer|, 0, kernel);
            if s.status.CONNECTING? then s'.wire == s.wire && s'.bytesWritten == s.bytesWritten
            else
              && s'.wire == s.wire + s.buffer[..r.0]
              && s'.bytesWritten == s.bytesWritten + if r.1.Failed? then 0 else r.0
  {
  }

  /** A failure after one byte: the retry sends that byte again. */
  lemma FailureResends()
    ensures var es := [DoConnect(Immediate), DoWrite("ab", [Takes(1), Fails]), DoWritable([Takes(2)], true)];
            Run(es).accepted == "ab" && Run(es).wire == "aab"
  {
    var e0, e1, e2 := DoConnect(Immediate), DoWrite("ab", [Takes(1), Fails]), DoWritable([Takes(2)], true);
    assert [e0, e1, e2][..2] == [e0, e1] && [e0, e1][..1] == [e0] && [e0][..0] == [];
    assert Run([e0]) == IDLE_SOCKET.(status := CONNECTED);
    var s1 := Run([e0, e1]);
    assert [Takes(1), Fails][1..] == [Fails];
    assert WriteLoop(2, 1, [Fails]) == (1, Failed);
    assert s1.buffer == "ab" && s1.wire == "a";
    assert FlushLoop(2, 2, [Takes(2)][1..]) == (2, Completed);
  }

  /** The write promise with number `id` is resolved. */
  predicate IsResolved(s: Sock, id: nat) {
    id < |s.targets| - |s.queue|
  }

  /** A write promise is resolved only when every byte passed to `write` up to and including its own
      write has been taken by the kernel. */
  lemma PromiseSound(es: seq<Event>, id: nat)
    requires IsResolved(Run(es), id)
    ensures Run(es).targets[id] <= Run(es).bytesWritten
    ensures TotalResent(es) == 0 ==>
              && Run(es).targets[id] <= |Run(es).wire| <= |Run(es).accepted|
              && Run(es).wire[..Run(es).targets[id]] == Run(es).accepted[..Run(es).targets[id]]
  {
    RunInv(es);
    RunOnWire(es);
  }

  /** Once given, a target never changes, and a resolved promise stays resolved. */
  lemma ResolvedForever(es: seq<Event>, e: Event, id: nat)
    requires id < |Run(es).targets|
    ensures id < |Run(es + [e]).targets| && Run(es + [e]).targets[id] == Run(es).targets[id]
    ensures IsResolved(Run(es), id) ==> IsResolved(Run(es + [e]), id)
  {
    assert (es + [e])[..|es|] == es;
    var s1 := Commit(Run(es), FlushLoop(|Run(es).buffer|, 0, if e.DoWritable? then e.kernel else []).0);
    UnreachedSuffix(s1.queue, s1.bytesWritten);
  }

  /** The target of a promise is the number of bytes accepted up to and including its write, and the
      promise that `write` hands out resolved at once leaves nothing unsent. */
  lemma TargetIsAccepted(es: seq<Event>, data: string, kernel: seq<Reply>)
    ensures var r := Write(Run(es), data, kernel);
            && (r.1.Promised? ==> r.1.id == |Run(es).targets| && r.0.targets == Run(es).targets + [|Passed(es) + data|])
            && (r.1.Resolved? ==> r.0.buffer == [] && r.0.bytesWritten == |Passed(es) + data|)
            && (!r.1.Promised? ==> r.0.targets == Run(es).targets && r.0.queue == Run(es).queue)
  {
    AcceptedIsPassed(es);
    RunInv(es);
  }

  /** A writable event that flushes without failing. */
  predicate Flushes(s: Sock, e: Event) {
    e.DoWritable? && !s.status.CONNECTING? && !FlushLoop(|s.buffer|, 0, e.kernel).1.Failed?
  }

  /** Event `k - 1` flushed, and promise `id` was there, its target reached, right after it. */
  predicate ResolvedAt(es: seq<Event>, k: nat, id: nat) {
    && 0 < k <= |es| && Flushes(Run(es[..k - 1]), es[k - 1])
    && id < |Run(es[..k]).targets| && Run(es[..k]).targets[id] <= Run(es[..k]).bytesWritten
  }

  /** No other event resolves anything. */
  lemma OnlyFlushesResolve(s: Sock, e: Event, id: nat)
    requires !Flushes(s, e)
    ensures IsResolved(Apply(s, e), id) <==> IsResolved(s, id)
  {
    match e
    case DoWrite(data, kernel) =>
    case DoWritable(kernel, connected) =>
    case _ =>
  }

  lemma ResolvedFront(es: seq<Event>, k: nat, id: nat)
    requires k < |es|
    ensures ResolvedAt(es, k, id) <==> ResolvedAt(es[..|es| - 1], k, id)
  {
    var front := es[..|es| - 1];
    if k > 0 { assert es[..k] == front[..k] && es[..k - 1] == front[..k - 1] && es[k - 1] == front[k - 1]; }
  }

  /** Exactly when a write promise is resolved: if and only if its target was reached at the end of some
      writable event after it was given out.  That `write` itself moves the counter past the target does
      not resolve it. */
  lemma {:induction false} ResolvedIff(es: seq<Event>, id: nat)
    requires id < |Run(es).targets|
    ensures IsResolved(Run(es), id) <==> exists k :: ResolvedAt(es, k, id)
  {
    if es != [] {
      var front, e, n := es[..|es| - 1], es[|es| - 1], |es|;
      assert es[..n] == es && front + [e] == es;
      if id < |Run(front).targets| {
        ResolvedIff(front, id);
      } else {
        forall k | 0 <= k < n ensures !ResolvedAt(front, k, id) {
          if k <= |front| { TargetsGrow(front, k); }
        }
      }
      ResolvedLast(es, id);
      if IsResolved(Run(front), id) && id < |Run(front).targets| {
        var k :| ResolvedAt(front, k, id);
        ResolvedFront(es, k, id);
      }
      if k :| ResolvedAt(es, k, id) && k != n { ResolvedFront(es, k, id); }
    }
  }

  /** The last event adds what it flushes. */
  lemma ResolvedLast(es: seq<Event>, id: nat)
    requires es != [] && id < |Run(es).targets|
    ensures var s := Run(es[..|es| - 1]);
            IsResolved(Run(es), id) <==> (id < |s.targets| && IsResolved(s, id)) || ResolvedAt(es, |es|, id)
  {
    var front, e := es[..|es| - 1], es[|es| - 1];
    assert es[..|es|] == es && front + [e] == es;
    RunInv(front);
    if Flushes(Run(front), e) {
      Flushed(Run(front), e.kernel, e.connected, id);
      if IsResolved(Run(front), id) { ResolvedForever(front, e, id); }
    } else {
      OnlyFlushesResolve(Run(front), e, id);
    }
  }

  lemma ApplyGrows(s: Sock, e: Event)
    ensures |s.targets| <= |Apply(s, e).targets|
  {
  }

  lemma {:induction false} TargetsGrow(es: seq<Event>, k: nat)
    requires k <= |es|
    ensures |Run(es[..k]).targets| <= |Run(es).targets|
  {
    assert es[..|es|] == es;
    if k < |es| {
      assert es[..|es| - 1][..k] == es[..k];
      TargetsGrow(es[..|es| - 1], k);
      ApplyGrows(Run(es[..|es| - 1]), es[|es| - 1]);
    }
  }

  /** After a `write`, the promises that were waiting still are, even where the counter has reached their
      targets. */
  lemma WriteResolvesNone(es: seq<Event>, data: string, kernel: seq<Reply>, id: nat)
    requires id < |Run(es).targets|
    ensures var s := Run(es + [DoWrite(data, kernel)]);
            && (IsResolved(s, id) <==> IsResolved(Run(es), id))
            && id < |s.targets| && s.targets[id] == Run(es).targets[id]
  {
    assert (es + [DoWrite(data, kernel)])[..|es|] == es;
    OnlyFlushesResolve(Run(es), DoWrite(data, kernel), id);
    ResolvedForever(es, DoWrite(data, kernel), id);
  }

  /** A run that ends with everything on the wire and a write promise still waiting. */
  lemma ReachedButWaiting()
    ensures var es := [DoConnect(Immediate), DoWrite("a", [Again]), DoWrite("b", [Takes(2)])];
            var s := Run(es);
            s.buffer == [] && s.wire == "ab" && s.bytesWritten == 2 && s.targets == [1] && !IsResolved(s, 0)
  {
    var e0, e1, e2 := DoConnect(Immediate), DoWrite("a", [Again]), DoWrite("b", [Takes(2)]);
    assert [e0, e1, e2][..2] == [e0, e1] && [e0, e1][..1] == [e0] && [e0][..0] == [];
    var s0 := IDLE_SOCKET.(status := CONNECTED);
    assert Run([e0]) == s0;
    BlockedWrite(s0);
    CompletingWrite(Apply(s0, e1));
  }

  lemma BlockedWrite(s: Sock)
    requires s == IDLE_SOCKET.(status := CONNECTED)
    ensures Apply(s, DoWrite("a", [Again]))
         == s.(buffer := "a", accepted := "a", queue := [Item(1, 0)], targets := [1])
  {
    assert [] + "a" == "a" && "a"[..0] == "" && "a"[0..] == "a";
  }

  lemma CompletingWrite(s: Sock)
    requires s.buffer == "a" && s.wire == "" && s.bytesWritten == 0
    ensures Apply(s, DoWrite("b", [Takes(2)]))
         == s.(buffer := "", wire := "ab", bytesWritten := 2, accepted := s.accepted + "b")
  {
    assert "a" + "b" == "ab" && "ab"[..2] == "ab" && "ab"[2..] == "" && "" + "ab" == "ab";
    assert WriteLoop(2, 0, [Takes(2)]) == (2, Completed);
  }

  /** Event `k` found the end of the stream while the socket was CONNECTING. */
  predicate EndedConnecting(es: seq<Event>, k: nat) {
    k < |es| && es[k] == DoReadable(Eof) && Run(es[..k]).status.CONNECTING?
  }

  /** A promise of `connect` waits if and only if the socket is CONNECTING, or the end of the stream was found
      while it was: it is resolved by the event that connects the socket, and by nothing else.  So a
      connection that fails leaves it waiting, and so does a peer that closes before the socket is told
      that it is connected. */
  lemma {:induction false} ConnectWaitsIff(es: seq<Event>)
    ensures Run(es).connectWaits <==> Run(es).status.CONNECTING? || exists k :: EndedConnecting(es, k)
    ensures (exists k :: EndedConnecting(es, k)) ==> Over(Run(es))
  {
    if es != [] {
      var front, n := es[..|es| - 1], |es| - 1;
      ConnectWaitsIff(front);
      EndedLast(es, front);
      ConnectStep(Run(front), es[n]);
      assert EndedConnecting(es, n) <==> es[n] == DoReadable(Eof) && Run(front).status.CONNECTING?;
    }
  }

  /** The end of the stream was found, or the socket was closed. */
  predicate Over(s: Sock) {
    s.status.HALF_CLOSED? || s.status.CLOSED?
  }

  /** One event and the promise of `connect`. */
  lemma ConnectStep(s: Sock, e: Event)
    requires !Over(s) ==> (s.connectWaits <==> s.status.CONNECTING?)
    ensures var s' := Apply(s, e);
            && (!Over(s') ==> (s'.connectWaits <==> s'.status.CONNECTING?))
            && (Over(s') ==> (s'.connectWaits <==> s.connectWaits))
            && (Over(s) ==> Over(s'))
            && (s.status.CONNECTING? ==> (Over(s') <==> e == DoReadable(Eof)))
  {
  }

  lemma EndedLast(es: seq<Event>, front: seq<Event>)
    requires es != [] && front == es[..|es| - 1]
    ensures (exists k :: EndedConnecting(es, k)) <==>
              (exists k :: EndedConnecting(front, k)) || EndedConnecting(es, |es| - 1)
  {
    if k :| EndedConnecting(front, k) { EndedFront(es, k); }
    if k :| EndedConnecting(es, k) { EndedFront(es, k); }
  }

  lemma EndedFront(es: seq<Event>, k: nat)
    requires k < |es|
    ensures EndedConnecting(es, k) <==> EndedConnecting(es[..|es| - 1], k) || (k == |es| - 1 && EndedConnecting(es, k))
  {
    var front := es[..|es| - 1];
    if k < |front| { assert es[..k] == front[..k] && es[k] == front[k]; }
  }

  /** A connection that fails: `close` does nothing while the socket is CONNECTING, and the promise waits. */
  lemma FailedConnectionWaits(kernel: seq<Reply>)
    ensures var s := Run([DoConnect(InProgress), DoWritable(kernel, false)]);
            && s.status == CONNECTING && s.connectWaits
            && forall fails :: Close(s, fails) == (s, false)
  {
    var e0, e1 := DoConnect(InProgress), DoWritable(kernel, false);
    assert [e0, e1][..1] == [e0] && [e0][..0] == [];
    assert Run([e0]) == Apply(IDLE_SOCKET, e0);
    assert Run([e0, e1]) == Apply(Run([e0]), e1);
  }

  /** A peer that accepts and closes before the first event, which finds the end of the stream and room to
      write: the socket is HALF_CLOSED and the promise waits. */
  lemma EarlyEndWaits()
    ensures var s := Run([DoConnect(InProgress), DoReadable(Eof), DoWritable([], true)]);
            s.status == HALF_CLOSED && s.connectWaits
  {
    var e0, e1, e2 := DoConnect(InProgress), DoReadable(Eof), DoWritable([], true);
    assert [e0, e1, e2][..2] == [e0, e1] && [e0, e1][..1] == [e0] && [e0][..0] == [];
    assert Run([e0]) == Apply(IDLE_SOCKET, e0);
    assert Run([e0, e1]) == Apply(Run([e0]), e1);
    assert Run([e0, e1, e2]) == Apply(Run([e0, e1]), e2);
  }

  /** A socket that was closed on this side first has given its descriptor away, and `close` does nothing more:
      unless the end of the stream is found after that, it stays HALF_CLOSED whatever happens. */
  lemma {:induction false} LocalCloseHalf(es: seq<Event>, more: seq<Event>)
    requires Run(es).status.CONNECTED? && Run(es).open
    requires DoReadable(Eof) !in more
    ensures Run(es + [DoClose(false)] + more).status.HALF_CLOSED? && !Run(es + [DoClose(false)] + more).open
  {
    var start := es + [DoClose(false)];
    if more == [] {
      assert start + more == start;
      RunSnoc(es, DoClose(false));
    } else {
      var front := more[..|more| - 1];
      assert DoReadable(Eof) !in front;
      LocalCloseHalf(es, front);
      assert start + more == start + front + [more[|more| - 1]];
      RunSnoc(start + front, more[|more| - 1]);
      HalfStays(Run(start + front), more[|more| - 1]);
    }
  }

  lemma RunSnoc(es: seq<Event>, e: Event)
    ensures Run(es + [e]) == Apply(Run(es), e)
  {
    assert (es + [e])[..|es|] == es;
  }

  lemma HalfStays(s: Sock, e: Event)
    requires s.status.HALF_CLOSED? && !s.open && e != DoReadable(Eof)
    ensures Apply(s, e).status.HALF_CLOSED? && !Apply(s, e).open
  {
  }

  /** After an event that flushed without failing, a promise is resolved if and only if its target is
      reached; none is left when the buffer is empty. */
  lemma FlushComplete(es: seq<Event>, kernel: seq<Reply>, connected: bool, id: nat)
    requires !Run(es).status.CONNECTING? && !Writable(Run(es), kernel, connected).1
    requires id < |Run(es).targets|
    ensures var s := Run(es + [DoWritable(kernel, connected)]);
            && s.targets == Run(es).targets
            && (IsResolved(s, id) <==> s.targets[id] <= s.bytesWritten)
            && (s.buffer == [] ==> s.queue == [])
  {
    var es1 := es + [DoWritable(kernel, connected)];
    assert es1[..|es|] == es;
    RunInv(es);
    Flushed(Run(es), kernel, connected, id);
  }

  lemma Flushed(s: Sock, kernel: seq<Reply>, connected: bool, id: nat)
    requires Inv(s) && !s.status.CONNECTING? && !Writable(s, kernel, connected).1
    requires id < |s.targets|
    ensures var s' := Writable(s, kernel, connected).0;
            && s'.targets == s.targets
            && (IsResolved(s', id) <==> s'.targets[id] <= s'.bytesWritten)
            && (s'.buffer == [] ==> s'.queue == [])
  {
    WritableInv(s, kernel, connected);
    var s' := Writable(s, kernel, connected).0;
    UnreachedSuffix(s.queue, s'.bytesWritten);
    if s'.queue != [] {
      FirstUnreached(s'.queue, s'.targets, s'.bytesWritten, |s'.accepted|, id);
    }
  }

  /** When the head of the queue is unreached, so is everything behind it, and the counter has not caught up. */
  lemma FirstUnreached(queue: seq<Item>, targets: seq<nat>, written: nat, bound: nat, id: nat)
    requires Waiting(queue, targets, written) && Ordered(targets, bound)
    requires queue != [] && queue[0].target > written && id < |targets|
    ensures written < bound
    ensures id < |targets| - |queue| <==> targets[id] <= written
  {
    var n := |targets| - |queue|;
    assert queue[0] == Item(targets[n], n);
    assert id < n ==> targets[id] <= written;
    assert id > n ==> targets[n] <= targets[id];
  }

  /** How many calls a kernel that takes all it is offered needs: `write` sends rounds of
      N_BYTES_PER_ROUND and makes at least one call, the event sends rounds of SOCK_BUFFER_SIZE. */
  lemma {:induction false} FullWriteRounds(size: nat, offset: nat, kernel: seq<Reply>)
    requires offset <= size
    requires forall i :: 0 <= i < |kernel| ==> kernel[i].Takes? && kernel[i].n >= 4096
    ensures WriteLoop(size, offset, kernel).1.Completed? <==>
              kernel != [] && size - offset <= |kernel| * 4096
    decreases |kernel|
  {
    if kernel != [] && size - offset > N_BYTES_PER_ROUND {
      FullWriteRounds(size, offset + N_BYTES_PER_ROUND, kernel[1..]);
    }
  }

  lemma {:induction false} FullFlushRounds(size: nat, offset: nat, kernel: seq<Reply>)
    requires offset <= size
    requires forall i :: 0 <= i < |kernel| ==> kernel[i].Takes? && kernel[i].n >= 1024
    ensures FlushLoop(size, offset, kernel).1.Completed? <==> size - offset <= |kernel| * 1024
    decreases |kernel|
  {
    if kernel != [] && offset < size {
      FullFlushRounds(size, offset + Min(size - offset, SOCK_BUFFER_SIZE), kernel[1..]);
    }
  }

  /** A kernel that blocks no more empties the buffer: enough answers that take bytes complete a flush. */
  lemma {:induction false} FlushProgress(size: nat, offset: nat, kernel: seq<Reply>)
    requires offset <= size && size - offset <= |kernel| && forall i :: 0 <= i < |kernel| ==> kernel[i].Takes?
    ensures FlushLoop(size, offset, kernel) == (size, Completed)
    decreases |kernel|
  {
    if offset < size {
      FlushProgress(size, offset + Count(kernel[0].n, Min(size - offset, SOCK_BUFFER_SIZE)), kernel[1..]);
    }
  }
}
