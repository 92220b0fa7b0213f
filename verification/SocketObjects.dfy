/** The socket as the object it is: `write`, `connect`, `close` and the events change its fields in place. */
module SocketObjects {
  import opened Sockets

  class Socket {
    var status: Status
    var connectWaits: bool
    var open: bool
    var buffer: string
    var bytesWritten: nat
    var writePromiseQueue: seq<Item>
    ghost var wire: string
    ghost var accepted: string
    ghost var targets: seq<nat>
    var promises: nat

    ghost predicate Valid()
      reads this
    {
      promises == |targets|
    }

    ghost function Abs(): Sock
      reads this
    {
      Sock(status, connectWaits, open, buffer, bytesWritten, writePromiseQueue, wire, accepted, targets)
    }

    constructor ()
      ensures Valid() && Abs() == IDLE_SOCKET
    {
      status, connectWaits, open, buffer, bytesWritten, writePromiseQueue := IDLE, false, true, [], 0, [];
      wire, accepted, targets, promises := [], [], [], 0;
    }

    /** The loop of `write`: keep writing until finished or blocked, or until the kernel fails. */
    method Transmit(kernel: seq<Reply>) returns (offset: nat, end: End)
      modifies this`wire
      ensures (offset, end) == WriteLoop(|buffer|, 0, kernel) && offset <= |buffer|
      ensures wire == old(wire) + buffer[..offset]
    {
      var i: nat := 0;
      offset := 0;
      while true
        invariant offset <= |buffer| && i <= |kernel|
        invariant WriteLoop(|buffer|, 0, kernel) == WriteLoop(|buffer|, offset, kernel[i..])
        invariant wire == old(wire) + buffer[..offset]
        decreases |kernel| - i
      {
        var writeLen := Min(N_BYTES_PER_ROUND, |buffer| - offset);
        if i == |kernel| || kernel[i].Again? {
          return offset, Blocked;
        }
        if kernel[i].Fails? {
          return offset, Failed;
        }
        var count := Count(kernel[i].n, writeLen);
        wire := wire + buffer[offset..offset + count];
        assert buffer[..offset + count] == buffer[..offset] + buffer[offset..offset + count];
        offset, i := offset + count, i + 1;
        if offset >= |buffer| {
          return offset, Completed;
        }
      }
    }

    /** Writes as much as the kernel takes; what is left waits for the writable event. */
    method WriteData(data: string, kernel: seq<Reply>) returns (r: Written)
      requires Valid()
      modifies this
      ensures Valid() && (Abs(), r) == Write(old(Abs()), data, kernel)
    {
      buffer := buffer + data;
      accepted := accepted + data;
      var offset, end := Transmit(kernel);
      if end == Failed {
        return Thrown;
      }
      bytesWritten := bytesWritten + offset;
      buffer := buffer[offset..];
      if end == Completed {
        r := Resolved;
      } else {
        var writeTarget := bytesWritten + |buffer|;
        writePromiseQueue := writePromiseQueue + [Item(writeTarget, promises)];
        targets := targets + [writeTarget];
        r := Promised(promises);
        promises := promises + 1;
      }
    }

    /** Pops every write promise whose target is reached; `resolved` are their numbers in order. */
    method ResolveWrites() returns (resolved: seq<nat>)
      requires Valid()
      modifies this`writePromiseQueue
      ensures writePromiseQueue == Unreached(old(writePromiseQueue), bytesWritten)
      ensures |resolved| + |writePromiseQueue| == |old(writePromiseQueue)|
      ensures forall i :: 0 <= i < |resolved| ==> resolved[i] == old(writePromiseQueue)[i].id
    {
      resolved := [];
      while |writePromiseQueue| > 0
        invariant |resolved| + |writePromiseQueue| == |old(writePromiseQueue)|
        invariant writePromiseQueue == old(writePromiseQueue)[|resolved|..]
        invariant forall i :: 0 <= i < |resolved| ==> resolved[i] == old(writePromiseQueue)[i].id
        invariant Unreached(old(writePromiseQueue), bytesWritten) == Unreached(writePromiseQueue, bytesWritten)
        decreases |writePromiseQueue|
      {
        var promiseItem := writePromiseQueue[0];
        if promiseItem.target > bytesWritten {
          break;
        }
        resolved := resolved + [promiseItem.id];
        writePromiseQueue := writePromiseQueue[1..];
      }
    }

    /** The loop of the writable event: look for data, then write, until the buffer is sent or the kernel
        blocks or fails. */
    method Flush(kernel: seq<Reply>) returns (offset: nat, end: End)
      modifies this`wire
      ensures (offset, end) == FlushLoop(|buffer|, 0, kernel) && offset <= |buffer|
      ensures wire == old(wire) + buffer[..offset]
    {
      var i: nat := 0;
      offset := 0;
      while offset < |buffer|
        invariant offset <= |buffer| && i <= |kernel|
        invariant FlushLoop(|buffer|, 0, kernel) == FlushLoop(|buffer|, offset, kernel[i..])
        invariant wire == old(wire) + buffer[..offset]
        decreases |kernel| - i
      {
        var writeLen := Min(|buffer| - offset, SOCK_BUFFER_SIZE);
        if i == |kernel| || kernel[i].Again? {
          return offset, Blocked;
        }
        if kernel[i].Fails? {
          return offset, Failed;
        }
        var count := Count(kernel[i].n, writeLen);
        wire := wire + buffer[offset..offset + count];
        assert buffer[..offset + count] == buffer[..offset] + buffer[offset..offset + count];
        offset, i := offset + count, i + 1;
      }
      end := Completed;
    }

    /** The writable event: a connection under way ends, or the buffer is flushed. */
    method OnWritable(kernel: seq<Reply>, connected: bool) returns (resolved: seq<nat>, thrown: bool)
      requires Valid()
      modifies this
      ensures Valid() && (Abs(), thrown) == Writable(old(Abs()), kernel, connected)
      ensures |resolved| + |writePromiseQueue| == |old(writePromiseQueue)|
      ensures forall i :: 0 <= i < |resolved| ==> resolved[i] == old(writePromiseQueue)[i].id
    {
      resolved, thrown := [], false;
      if status == CONNECTING {
        if connected {
          status := CONNECTED;
          connectWaits := false;
        }
        return;
      }
      var offset, end := Flush(kernel);
      if end == Failed {
        thrown := true;
        return;
      }
      buffer := buffer[offset..];
      bytesWritten := bytesWritten + offset;
      resolved := ResolveWrites();
    }

    /** A first connection attempt; a later one does nothing. */
    method ConnectTo(outcome: Connection) returns (r: Attempt)
      requires Valid()
      modifies this`status, this`connectWaits
      ensures Valid() && (Abs(), r) == Connect(old(Abs()), outcome)
    {
      if status != IDLE {
        return Connected;
      }
      if outcome == Refused {
        return Refusal;
      }
      if outcome == Immediate {
        status := CONNECTED;
        return Connected;
      }
      status := CONNECTING;
      connectWaits := true;
      r := Waits;
    }

    /** The readable event: the end of the stream closes half of the connection, or the rest of it. */
    method OnReadable(a: Arrival) returns (thrown: bool)
      requires Valid()
      modifies this`status
      ensures Valid() && (Abs(), thrown) == Readable(old(Abs()), a)
    {
      if a == Broken {
        return true;
      }
      if a == Eof {
        if status == HALF_CLOSED {
          status := CLOSED;
        } else {
          status := HALF_CLOSED;
        }
      }
      thrown := false;
    }

    /** `close`: the first half of it, or the second. */
    method CloseSocket(fails: bool) returns (thrown: bool)
      requires Valid()
      modifies this`status, this`open
      ensures Valid() && (Abs(), thrown) == Close(old(Abs()), fails)
    {
      thrown := false;
      if status != CONNECTED && status != HALF_CLOSED {
        return;
      }
      if open && fails {
        return true;
      }
      if status == CONNECTED {
        open := false;
        status := HALF_CLOSED;
      } else if status == HALF_CLOSED && open {
        status := CLOSED;
      }
    }
  }
}
