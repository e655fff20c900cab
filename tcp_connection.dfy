/** One TCP connection driven by its loop: the four-state lifecycle, the
    output-buffer / write-interest protocol, the high-water-mark crossing rule
    and the deferred write half-close. The kernel's answers to `write` and
    `readv` and the socket's `SO_ERROR` are parameters; the callbacks the
    connection runs or queues are recorded, in order, in `effects`. */
module Connections {
  import opened Bytes
  import opened NetBuffer
  import opened Channels

  const EWOULDBLOCK: int := 11
  const EPIPE: int := 32
  const ECONNRESET: int := 104

  /** 64 MiB, the high-water mark a new connection starts with. */
  const DefaultHighWaterMark: nat := 64 * 1024 * 1024

  /** `StateE`. */
  datatype State = Disconnected | Connecting | Connected | Disconnecting

  /** What one `write(2)` on the socket returned: a byte count or an errno. */
  datatype WriteOutcome = Wrote(n: nat) | WriteFailed(errno: int)

  /** Something the connection did that is visible outside it. */
  datatype Effect =
    | QueueWriteComplete                  // `queueInLoop(writeCompleteCb_)`
    | QueueHighWaterMark(length: nat)     // `queueInLoop(highWaterMarkCb_, len)`
    | ShutdownWrite                       // `socket_->shutdownWrite()`
    | ConnectionCallback(connected: bool) // `connectionCb_`, with `connected()` as it then reads
    | MessageCallback(receiveTime: int)   // `messageCb_` on the input buffer
    | CloseCallback                       // `closeCb_`
    | RunSendInLoop(message: seq<Byte>)   // `runInLoop(sendInLoop)` from another thread
    | RunShutdownInLoop                   // `runInLoop(shutdownInLoop)` from another thread
    | SocketError(err: int)               // `handleError` reading `SO_ERROR`

  /** A write error after which the unsent bytes are dropped instead of buffered. */
  predicate IsFault(errno: int)
  {
    errno != EWOULDBLOCK && (errno == EPIPE || errno == ECONNRESET)
  }

  /** The high-water callback condition of `sendInLoop`: this append takes the
      buffered length from below the mark to at or above it. */
  predicate Crosses(oldLen: nat, added: nat, mark: nat)
  {
    oldLen + added >= mark && oldLen < mark
  }

  /** How many steps of a sequence of buffered lengths cross the mark. */
  function Crossings(lens: seq<nat>, mark: nat): (k: nat)
    ensures k <= |lens|
  {
    if |lens| < 2 then 0
    else (if lens[0] < mark <= lens[1] then 1 else 0) + Crossings(lens[1..], mark)
  }

  predicate NonDecreasing(lens: seq<nat>)
  {
    forall i, j :: 0 <= i < j < |lens| ==> lens[i] <= lens[j]
  }

  /** While the buffer only grows, the high-water callback fires at most once,
      and exactly once iff the mark lies above the first length and at or below
      the last. */
  lemma {:induction false} CrossingsOfGrowth(lens: seq<nat>, mark: nat)
    requires |lens| >= 1 && NonDecreasing(lens)
    ensures Crossings(lens, mark) <= 1
    ensures Crossings(lens, mark) == 1 <==> lens[0] < mark <= lens[|lens| - 1]
  {
    if |lens| >= 2 {
      var tail := lens[1..];
      assert NonDecreasing(tail) by {
        forall i, j | 0 <= i < j < |tail| ensures tail[i] <= tail[j] {
          assert tail[i] == lens[i + 1] && tail[j] == lens[j + 1];
        }
      }
      CrossingsOfGrowth(tail, mark);
      assert tail[0] == lens[1] && tail[|tail| - 1] == lens[|lens| - 1];
    }
  }

  /** Writing the first `n` bytes directly (only possible with nothing
      queued) and queueing the rest keeps the stream in order. */
  lemma StreamSplice(wire: seq<Byte>, queued: seq<Byte>, data: seq<Byte>, n: nat)
    requires n <= |data| && (n > 0 ==> queued == [])
    ensures (wire + data[..n]) + (queued + data[n..]) == (wire + queued) + data
  {
    assert data == data[..n] + data[n..];
    if n > 0 {
      assert (wire + data[..n]) + data[n..] == wire + (data[..n] + data[n..]);
    }
  }

  class TcpConnection {
    const channel: Channel
    const inputBuffer: Buffer
    const outputBuffer: Buffer
    var state: State
    var highWaterMark: nat
    var hasWriteCompleteCb: bool
    var hasHighWaterMarkCb: bool
    /** The bytes the kernel has accepted on this socket, in order. */
    var wire: seq<Byte>
    var effects: seq<Effect>

    /** The write-interest protocol: write interest is on exactly while the
        output buffer holds bytes (until the connection is down), a connection
        not yet up or already down has an empty mask (so reading is on only
        while connected or disconnecting), and the channel is tied to its
        owner from establishment on. */
    ghost predicate Valid()
      reads this, channel, inputBuffer, outputBuffer
    {
      inputBuffer != outputBuffer
      && channel.Valid() && inputBuffer.Valid() && outputBuffer.Valid()
      && (channel.IsWriting() ==> outputBuffer.ReadableBytes() > 0)
      && (state != Disconnected && outputBuffer.ReadableBytes() > 0 ==> channel.IsWriting())
      && (state == Connecting || state == Disconnected ==> channel.IsNoneEvent())
      && (channel.tied <==> state != Connecting)
    }

    /** Every byte handed to `send` and not dropped: on the wire, then buffered. */
    ghost function Stream(): seq<Byte>
      reads this, outputBuffer
      requires outputBuffer.Valid()
    {
      wire + outputBuffer.Contents()
    }

    predicate IsConnected()
      reads this
    {
      state == Connected
    }

    constructor (fd: int)
      ensures Valid() && fresh(channel) && fresh(inputBuffer) && fresh(outputBuffer)
      ensures state == Connecting && highWaterMark == DefaultHighWaterMark
      ensures !hasWriteCompleteCb && !hasHighWaterMarkCb
      ensures wire == [] && effects == [] && Stream() == []
      ensures channel.fd == fd && channel.IsNoneEvent() && channel.requests == []
      ensures channel.slots == Slots(true, true, true, true) && !channel.eventHandling
      ensures inputBuffer.Contents() == []
    {
      var ch := new Channel(fd);
      ch.SetReadCallback();
      ch.SetWriteCallback();
      ch.SetCloseCallback();
      ch.SetErrorCallback();
      channel := ch;
      inputBuffer := new Buffer();
      outputBuffer := new Buffer();
      state := Connecting;
      highWaterMark := DefaultHighWaterMark;
      hasWriteCompleteCb := false;
      hasHighWaterMarkCb := false;
      wire := [];
      effects := [];
    }

    method SetWriteCompleteCallback()
      modifies this
      ensures hasWriteCompleteCb
      ensures state == old(state) && highWaterMark == old(highWaterMark) && hasHighWaterMarkCb == old(hasHighWaterMarkCb)
      ensures wire == old(wire) && effects == old(effects)
    {
      hasWriteCompleteCb := true;
    }

    method SetHighWaterMarkCallback(mark: nat)
      modifies this
      ensures hasHighWaterMarkCb && highWaterMark == mark
      ensures state == old(state) && hasWriteCompleteCb == old(hasWriteCompleteCb)
      ensures wire == old(wire) && effects == old(effects)
    {
      hasHighWaterMarkCb := true;
      highWaterMark := mark;
    }

    /** Whether `sendInLoop` tries a direct `write` first. */
    predicate TriesDirectWrite()
      reads this, channel, outputBuffer
      requires outputBuffer.Valid()
    {
      !channel.IsWriting() && outputBuffer.ReadableBytes() == 0
    }

    /** The direct `write` that `sendInLoop` tries when nothing is queued:
        the bytes written go on the wire, a complete write queues the
        write-complete callback, and an `EPIPE`/`ECONNRESET` is a fault. */
    method WriteDirectly(data: seq<Byte>, w: WriteOutcome) returns (nwrote: nat, fault: bool)
      requires Valid()
      requires w.Wrote? ==> w.n <= |data|
      modifies this
      ensures Valid()
      ensures nwrote == (if w.Wrote? then w.n else 0)
      ensures fault <==> w.WriteFailed? && IsFault(w.errno)
      ensures wire == old(wire) + data[..nwrote]
      ensures effects == old(effects) + (if w.Wrote? && w.n == |data| && hasWriteCompleteCb then [QueueWriteComplete] else [])
      ensures state == old(state) && highWaterMark == old(highWaterMark)
      ensures hasWriteCompleteCb == old(hasWriteCompleteCb) && hasHighWaterMarkCb == old(hasHighWaterMarkCb)
    {
      fault := false;
      match w
      case Wrote(n) =>
        nwrote := n;
        wire := wire + data[..n];
        if |data| - n == 0 && hasWriteCompleteCb {
          effects := effects + [QueueWriteComplete];
        }
      case WriteFailed(errno) =>
        nwrote := 0;
        if errno != EWOULDBLOCK && (errno == EPIPE || errno == ECONNRESET) {
          fault := true;
        }
    }

    /** The second half of `sendInLoop`: queue the high-water callback on a
        crossing, append the unsent bytes and make sure write interest is on. */
    method BufferRemainder(rest: seq<Byte>)
      requires Valid() && (state == Connected || state == Disconnecting) && |rest| > 0
      modifies this, channel, outputBuffer
      ensures Valid() && channel.IsWriting()
      ensures outputBuffer.Contents() == old(outputBuffer.Contents()) + rest
      ensures effects == old(effects)
                + (if Crosses(old(outputBuffer.ReadableBytes()), |rest|, highWaterMark) && hasHighWaterMarkCb
                   then [QueueHighWaterMark(old(outputBuffer.ReadableBytes()) + |rest|)] else [])
      ensures wire == old(wire) && state == old(state) && highWaterMark == old(highWaterMark)
      ensures hasWriteCompleteCb == old(hasWriteCompleteCb) && hasHighWaterMarkCb == old(hasHighWaterMarkCb)
      ensures channel.tied == old(channel.tied) && channel.slots == old(channel.slots)
      ensures channel.eventHandling == old(channel.eventHandling) && channel.invoked == old(channel.invoked)
    {
      var oldLen := outputBuffer.ReadableBytes();
      if oldLen + |rest| >= highWaterMark && oldLen < highWaterMark && hasHighWaterMarkCb {
        effects := effects + [QueueHighWaterMark(oldLen + |rest|)];
      }
      outputBuffer.Append(rest);
      if !channel.IsWriting() {
        channel.EnableWriting();
      }
    }

    /** `sendInLoop(data, len)`; `w` is what the direct `write` returns when
        one is tried. Returns whether a fault error dropped the bytes. Bytes
        that are not dropped join the stream after everything sent before. */
    method SendInLoop(data: seq<Byte>, w: WriteOutcome) returns (fault: bool)
      requires Valid() && state != Connecting
      requires w.Wrote? ==> w.n <= |data|
      modifies this, channel, outputBuffer
      ensures Valid()
      ensures state == old(state) && highWaterMark == old(highWaterMark)
      ensures hasWriteCompleteCb == old(hasWriteCompleteCb) && hasHighWaterMarkCb == old(hasHighWaterMarkCb)
      ensures channel.tied == old(channel.tied) && channel.slots == old(channel.slots)
      ensures channel.eventHandling == old(channel.eventHandling) && channel.invoked == old(channel.invoked)
      ensures old(state) == Disconnected ==>
                !fault && wire == old(wire) && effects == old(effects)
                && outputBuffer.Contents() == old(outputBuffer.Contents())
                && channel.events == old(channel.events) && channel.requests == old(channel.requests)
      ensures fault <==> old(state) != Disconnected && old(TriesDirectWrite()) && w.WriteFailed? && IsFault(w.errno)
      ensures fault ==> wire == old(wire) && outputBuffer.Contents() == old(outputBuffer.Contents()) && effects == old(effects)
      ensures !fault ==> Stream() == old(Stream()) + (if old(state) == Disconnected then [] else data)
      ensures old(state) != Disconnected && !fault ==>
                var written := if old(TriesDirectWrite()) && w.Wrote? then w.n else 0;
                wire == old(wire) + data[..written]
                && (written < |data| ==> channel.IsWriting())
      ensures old(state) != Disconnected && !fault ==>
                var written := if old(TriesDirectWrite()) && w.Wrote? then w.n else 0;
                var oldLen := old(outputBuffer.ReadableBytes());
                effects == old(effects)
                   + (if old(TriesDirectWrite()) && w.Wrote? && written == |data| && hasWriteCompleteCb
                      then [QueueWriteComplete] else [])
                   + (if written < |data| && Crosses(oldLen, |data| - written, highWaterMark) && hasHighWaterMarkCb
                      then [QueueHighWaterMark(oldLen + |data| - written)] else [])
    {
      fault := false;
      if state != Disconnected {
        fault := SendWhileUp(data, w);
      }
    }

    /** `sendInLoop` on a connection that is up or going down. */
    method SendWhileUp(data: seq<Byte>, w: WriteOutcome) returns (fault: bool)
      requires Valid() && (state == Connected || state == Disconnecting)
      requires w.Wrote? ==> w.n <= |data|
      modifies this, channel, outputBuffer
      ensures Valid()
      ensures state == old(state) && highWaterMark == old(highWaterMark)
      ensures hasWriteCompleteCb == old(hasWriteCompleteCb) && hasHighWaterMarkCb == old(hasHighWaterMarkCb)
      ensures channel.tied == old(channel.tied) && channel.slots == old(channel.slots)
      ensures channel.eventHandling == old(channel.eventHandling) && channel.invoked == old(channel.invoked)
      ensures fault <==> old(TriesDirectWrite()) && w.WriteFailed? && IsFault(w.errno)
      ensures fault ==> wire == old(wire) && outputBuffer.Contents() == old(outputBuffer.Contents()) && effects == old(effects)
      ensures !fault ==> Stream() == old(Stream()) + data
      ensures !fault ==>
                var written := if old(TriesDirectWrite()) && w.Wrote? then w.n else 0;
                wire == old(wire) + data[..written]
                && (written < |data| ==> channel.IsWriting())
      ensures !fault ==>
                var written := if old(TriesDirectWrite()) && w.Wrote? then w.n else 0;
                var oldLen := old(outputBuffer.ReadableBytes());
                effects == old(effects)
                   + (if old(TriesDirectWrite()) && w.Wrote? && written == |data| && hasWriteCompleteCb
                      then [QueueWriteComplete] else [])
                   + (if written < |data| && Crosses(oldLen, |data| - written, highWaterMark) && hasHighWaterMarkCb
                      then [QueueHighWaterMark(oldLen + |data| - written)] else [])
    {
      if !channel.IsWriting() && outputBuffer.ReadableBytes() == 0 {
        fault := SendDirect(data, w);
      } else {
        fault := false;
        SendQueued(data);
      }
    }

    /** `sendInLoop` with nothing queued: write directly, queue what is left. */
    method SendDirect(data: seq<Byte>, w: WriteOutcome) returns (fault: bool)
      requires Valid() && (state == Connected || state == Disconnecting) && TriesDirectWrite()
      requires w.Wrote? ==> w.n <= |data|
      modifies this, channel, outputBuffer
      ensures Valid()
      ensures state == old(state) && highWaterMark == old(highWaterMark)
      ensures hasWriteCompleteCb == old(hasWriteCompleteCb) && hasHighWaterMarkCb == old(hasHighWaterMarkCb)
      ensures channel.tied == old(channel.tied) && channel.slots == old(channel.slots)
      ensures channel.eventHandling == old(channel.eventHandling) && channel.invoked == old(channel.invoked)
      ensures fault <==> w.WriteFailed? && IsFault(w.errno)
      ensures fault ==> wire == old(wire) && outputBuffer.Contents() == old(outputBuffer.Contents()) && effects == old(effects)
      ensures !fault ==> Stream() == old(Stream()) + data
      ensures !fault ==>
                var written := if w.Wrote? then w.n else 0;
                wire == old(wire) + data[..written]
                && (written < |data| ==> channel.IsWriting())
                && effects == old(effects)
                   + (if w.Wrote? && written == |data| && hasWriteCompleteCb then [QueueWriteComplete] else [])
                   + (if written < |data| && Crosses(0, |data| - written, highWaterMark) && hasHighWaterMarkCb
                      then [QueueHighWaterMark(|data| - written)] else [])
    {
      ghost var w0, c0 := wire, outputBuffer.Contents();
      var nwrote: nat;
      nwrote, fault := WriteDirectly(data, w);
      StreamSplice(w0, c0, data, nwrote);
      if !fault && nwrote < |data| {
        BufferRemainder(data[nwrote..]);
      } else if !fault {
        assert data[nwrote..] == [] && c0 + data[nwrote..] == c0;
      }
    }

    /** `sendInLoop` behind bytes already queued: append them all. */
    method SendQueued(data: seq<Byte>)
      requires Valid() && (state == Connected || state == Disconnecting) && !TriesDirectWrite()
      modifies this, channel, outputBuffer
      ensures Valid()
      ensures state == old(state) && highWaterMark == old(highWaterMark)
      ensures hasWriteCompleteCb == old(hasWriteCompleteCb) && hasHighWaterMarkCb == old(hasHighWaterMarkCb)
      ensures channel.tied == old(channel.tied) && channel.slots == old(channel.slots)
      ensures channel.eventHandling == old(channel.eventHandling) && channel.invoked == old(channel.invoked)
      ensures Stream() == old(Stream()) + data && wire == old(wire)
      ensures 0 < |data| ==> channel.IsWriting()
      ensures effects == old(effects)
                + (if 0 < |data| && Crosses(old(outputBuffer.ReadableBytes()), |data|, highWaterMark) && hasHighWaterMarkCb
                   then [QueueHighWaterMark(old(outputBuffer.ReadableBytes()) + |data|)] else [])
    {
      ghost var c0 := outputBuffer.Contents();
      if 0 < |data| {
        BufferRemainder(data);
        assert Stream() == wire + (c0 + data);
      } else {
        assert data == [] && c0 + data == c0;
      }
    }

    /** `send(data)`: only a connected connection sends; off the loop thread
        the bytes are handed to the loop instead. */
    method Send(data: seq<Byte>, inLoopThread: bool, w: WriteOutcome)
      requires Valid()
      requires w.Wrote? ==> w.n <= |data|
      modifies this, channel, outputBuffer
      ensures Valid()
      ensures state == old(state)
      ensures old(state) != Connected ==>
                wire == old(wire) && effects == old(effects) && Stream() == old(Stream())
                && channel.events == old(channel.events)
      ensures old(state) == Connected && !inLoopThread ==>
                wire == old(wire) && effects == old(effects) + [RunSendInLoop(data)] && Stream() == old(Stream())
      ensures old(state) == Connected && inLoopThread && !(old(TriesDirectWrite()) && w.WriteFailed? && IsFault(w.errno)) ==>
                Stream() == old(Stream()) + data
      ensures old(state) == Connected && inLoopThread && old(TriesDirectWrite()) && w.WriteFailed? && IsFault(w.errno) ==>
                wire == old(wire) && Stream() == old(Stream()) && effects == old(effects)
      ensures old(state) == Connected && inLoopThread && !(old(TriesDirectWrite()) && w.WriteFailed? && IsFault(w.errno)) ==>
                var written := if old(TriesDirectWrite()) && w.Wrote? then w.n else 0;
                var oldLen := old(outputBuffer.ReadableBytes());
                wire == old(wire) + data[..written]
                && (written < |data| ==> channel.IsWriting())
                && effects == old(effects)
                   + (if old(TriesDirectWrite()) && w.Wrote? && written == |data| && hasWriteCompleteCb
                      then [QueueWriteComplete] else [])
                   + (if written < |data| && Crosses(oldLen, |data| - written, highWaterMark) && hasHighWaterMarkCb
                      then [QueueHighWaterMark(oldLen + |data| - written)] else [])
    {
      if state == Connected {
        if inLoopThread {
          var _ := SendInLoop(data, w);
        } else {
          effects := effects + [RunSendInLoop(data)];
        }
      }
    }

    /** `send(Buffer*)`: like `send` on the buffer's readable bytes, which the
        source buffer gives up either way when the connection is up. */
    method SendBuffer(src: Buffer, inLoopThread: bool, w: WriteOutcome)
      requires Valid() && src.Valid() && src != outputBuffer
      requires w.Wrote? ==> w.n <= src.ReadableBytes()
      modifies this, channel, outputBuffer, src
      ensures Valid() && src.Valid()
      ensures state == old(state)
      ensures old(state) != Connected ==>
                wire == old(wire) && effects == old(effects) && Stream() == old(Stream())
                && src.Contents() == old(src.Contents())
      ensures old(state) == Connected ==> src.Contents() == []
      ensures old(state) == Connected && !inLoopThread ==>
                wire == old(wire) && effects == old(effects) + [RunSendInLoop(old(src.Contents()))] && Stream() == old(Stream())
      ensures old(state) == Connected && inLoopThread && !(old(TriesDirectWrite()) && w.WriteFailed? && IsFault(w.errno)) ==>
                Stream() == old(Stream()) + old(src.Contents())
      ensures old(state) == Connected && inLoopThread && old(TriesDirectWrite()) && w.WriteFailed? && IsFault(w.errno) ==>
                wire == old(wire) && Stream() == old(Stream()) && effects == old(effects)
      ensures old(state) == Connected && inLoopThread && !(old(TriesDirectWrite()) && w.WriteFailed? && IsFault(w.errno)) ==>
                var written := if old(TriesDirectWrite()) && w.Wrote? then w.n else 0;
                var oldLen := old(outputBuffer.ReadableBytes());
                wire == old(wire) + old(src.Contents())[..written]
                && (written < |old(src.Contents())| ==> channel.IsWriting())
                && effects == old(effects)
                   + (if old(TriesDirectWrite()) && w.Wrote? && written == |old(src.Contents())| && hasWriteCompleteCb
                      then [QueueWriteComplete] else [])
                   + (if written < |old(src.Contents())| && Crosses(oldLen, |old(src.Contents())| - written, highWaterMark) && hasHighWaterMarkCb
                      then [QueueHighWaterMark(oldLen + |old(src.Contents())| - written)] else [])
    {
      if state == Connected {
        if inLoopThread {
          var data := src.Contents();
          var _ := SendInLoop(data, w);
          src.RetrieveAll();
        } else {
          var data := src.RetrieveAllAsString();
          effects := effects + [RunSendInLoop(data)];
        }
      }
    }

    /** `shutdownInLoop()`: half-close the write side unless bytes are still
        waiting for write readiness. It never cuts off buffered output. */
    method ShutdownInLoop()
      requires Valid()
      modifies this
      ensures Valid()
      ensures effects == old(effects) + (if channel.IsWriting() then [] else [ShutdownWrite])
      ensures !channel.IsWriting() && state != Disconnected ==> outputBuffer.ReadableBytes() == 0
      ensures state == old(state) && wire == old(wire) && highWaterMark == old(highWaterMark)
      ensures hasWriteCompleteCb == old(hasWriteCompleteCb) && hasHighWaterMarkCb == old(hasHighWaterMarkCb)
    {
      if !channel.IsWriting() {
        effects := effects + [ShutdownWrite];
      }
    }

    /** `shutdown()`: a connected connection moves to disconnecting and then
        half-closes, at once on the loop thread, else by way of the loop. */
    method Shutdown(inLoopThread: bool)
      requires Valid()
      modifies this
      ensures Valid()
      ensures old(state) == Connected ==> state == Disconnecting
      ensures old(state) != Connected ==> state == old(state) && effects == old(effects)
      ensures old(state) == Connected && inLoopThread ==>
                effects == old(effects) + (if channel.IsWriting() then [] else [ShutdownWrite])
      ensures old(state) == Connected && !inLoopThread ==> effects == old(effects) + [RunShutdownInLoop]
      ensures wire == old(wire) && highWaterMark == old(highWaterMark)
      ensures hasWriteCompleteCb == old(hasWriteCompleteCb) && hasHighWaterMarkCb == old(hasHighWaterMarkCb)
    {
      if state == Connected {
        state := Disconnecting;
        if inLoopThread {
          ShutdownInLoop();
        } else {
          effects := effects + [RunShutdownInLoop];
        }
      }
    }

    /** `connectEstablished()`: connecting to connected, tie the channel,
        enable reading and report the connection up. */
    method ConnectEstablished()
      requires Valid() && state == Connecting
      modifies this, channel
      ensures Valid() && state == Connected
      ensures channel.IsReading() && !channel.IsWriting() && channel.tied
      ensures channel.requests == old(channel.requests) + [UpdateChannel(ReadEvent)]
      ensures effects == old(effects) + [ConnectionCallback(true)]
      ensures wire == old(wire) && highWaterMark == old(highWaterMark)
      ensures hasWriteCompleteCb == old(hasWriteCompleteCb) && hasHighWaterMarkCb == old(hasHighWaterMarkCb)
      ensures channel.slots == old(channel.slots) && channel.eventHandling == old(channel.eventHandling)
    {
      state := Connected;
      channel.Tie();
      channel.EnableReading();
      effects := effects + [ConnectionCallback(true)];
    }

    /** `connectDestroyed()` as the source has it: only a connected connection
        clears its mask before `remove()`. Returns whether `remove()`'s
        empty-mask assertion holds; when it does not, the model stops there. */
    method ConnectDestroyedAsWritten() returns (removeAssertionHolds: bool)
      requires Valid()
      modifies this, channel
      ensures removeAssertionHolds <==> old(state) == Connected || old(channel.IsNoneEvent())
      ensures old(state) == Connected ==> state == Disconnected && effects == old(effects) + [ConnectionCallback(false)]
      ensures old(state) != Connected ==> state == old(state) && effects == old(effects)
      ensures removeAssertionHolds ==> channel.IsNoneEvent() && |channel.requests| > 0 && channel.requests[|channel.requests| - 1] == RemoveChannel
    {
      if state == Connected {
        state := Disconnected;
        channel.DisableAll();
        effects := effects + [ConnectionCallback(false)];
      }
      if channel.IsNoneEvent() {
        channel.Remove();
        removeAssertionHolds := true;
      } else {
        removeAssertionHolds := false;
      }
    }

    /** `connectDestroyed()` with the disconnecting state handled too: any
        connection that has been up ends down with an empty mask, so `remove()`
        is always legal. */
    method ConnectDestroyed()
      requires Valid()
      modifies this, channel
      ensures Valid() && channel.IsNoneEvent()
      ensures old(state) == Connected || old(state) == Disconnecting ==>
                state == Disconnected && effects == old(effects) + [ConnectionCallback(false)]
                && channel.requests == old(channel.requests) + [UpdateChannel(NoneEvent), RemoveChannel]
      ensures old(state) == Connecting || old(state) == Disconnected ==>
                state == old(state) && effects == old(effects)
                && channel.requests == old(channel.requests) + [RemoveChannel]
      ensures wire == old(wire)
    {
      if state == Connected || state == Disconnecting {
        state := Disconnected;
        channel.DisableAll();
        effects := effects + [ConnectionCallback(false)];
      }
      channel.Remove();
    }

    /** `handleError()`: report the socket's pending error. */
    method HandleError(soError: int)
      modifies this
      ensures effects == old(effects) + [SocketError(soError)]
      ensures state == old(state) && wire == old(wire) && highWaterMark == old(highWaterMark)
      ensures hasWriteCompleteCb == old(hasWriteCompleteCb) && hasHighWaterMarkCb == old(hasHighWaterMarkCb)
    {
      effects := effects + [SocketError(soError)];
    }

    /** `handleClose()`: the peer is gone; go down, clear the mask, report
        the connection down and, last, run the close callback. */
    method HandleClose()
      requires Valid() && (state == Connected || state == Disconnecting)
      modifies this, channel
      ensures Valid() && state == Disconnected && channel.IsNoneEvent()
      ensures channel.requests == old(channel.requests) + [UpdateChannel(NoneEvent)]
      ensures effects == old(effects) + [ConnectionCallback(false), Effect.CloseCallback]
      ensures wire == old(wire) && highWaterMark == old(highWaterMark)
      ensures hasWriteCompleteCb == old(hasWriteCompleteCb) && hasHighWaterMarkCb == old(hasHighWaterMarkCb)
      ensures channel.slots == old(channel.slots) && channel.eventHandling == old(channel.eventHandling)
    {
      state := Disconnected;
      channel.DisableAll();
      effects := effects + [ConnectionCallback(false), Effect.CloseCallback];
    }

    /** `handleRead(t)`: read what the kernel has into the input buffer; bytes
        go to the message callback, end of stream closes, an error is reported. */
    method HandleRead(receiveTime: int, kernel: ReadvOutcome, soError: int)
      requires Valid() && channel.IsReading()
      requires kernel.ReadvBytes? ==> |kernel.data| <= ReadvCapacity(inputBuffer.WritableBytes())
      modifies this, channel, inputBuffer
      ensures Valid()
      ensures wire == old(wire) && outputBuffer.Contents() == old(outputBuffer.Contents())
      ensures kernel.ReadvBytes? ==> inputBuffer.Contents() == old(inputBuffer.Contents()) + kernel.data
      ensures kernel.ReadvFailed? ==> inputBuffer.Contents() == old(inputBuffer.Contents())
      ensures kernel.ReadvBytes? && |kernel.data| > 0 ==>
                state == old(state) && effects == old(effects) + [MessageCallback(receiveTime)]
      ensures kernel.ReadvBytes? && |kernel.data| == 0 ==>
                state == Disconnected && channel.IsNoneEvent()
                && effects == old(effects) + [ConnectionCallback(false), Effect.CloseCallback]
      ensures kernel.ReadvFailed? ==> state == old(state) && effects == old(effects) + [SocketError(soError)]
    {
      var n, _ := inputBuffer.ReadFd(kernel);
      if n > 0 {
        effects := effects + [MessageCallback(receiveTime)];
      } else if n == 0 {
        HandleClose();
      } else {
        HandleError(soError);
      }
    }

    /** `handleWrite()`: the socket is writable; `w` is what `write` of the
        whole buffered output returned. Written bytes leave the buffer in
        order; a drained buffer turns write interest off, queues the
        write-complete callback and completes a pending half-close. */
    method HandleWrite(w: WriteOutcome)
      requires Valid()
      requires w.Wrote? ==> w.n <= outputBuffer.ReadableBytes()
      modifies this, channel, outputBuffer
      ensures Valid()
      ensures Stream() == old(Stream())
      ensures state == old(state) && highWaterMark == old(highWaterMark)
      ensures hasWriteCompleteCb == old(hasWriteCompleteCb) && hasHighWaterMarkCb == old(hasHighWaterMarkCb)
      ensures !(old(channel.IsWriting()) && w.Wrote? && w.n > 0) ==>
                wire == old(wire) && effects == old(effects) && channel.events == old(channel.events)
      ensures old(channel.IsWriting()) && w.Wrote? && w.n > 0 ==>
                wire == old(wire) + old(outputBuffer.Contents())[..w.n]
                && (outputBuffer.ReadableBytes() == 0 <==> w.n == old(outputBuffer.ReadableBytes()))
      ensures old(channel.IsWriting()) && w.Wrote? && w.n == old(outputBuffer.ReadableBytes()) ==>
                !channel.IsWriting()
                && effects == old(effects) + (if hasWriteCompleteCb then [QueueWriteComplete] else [])
                                           + (if state == Disconnecting then [ShutdownWrite] else [])
      ensures old(channel.IsWriting()) && w.Wrote? && 0 < w.n < old(outputBuffer.ReadableBytes()) ==>
                channel.IsWriting() && effects == old(effects)
    {
      if channel.IsWriting() && w.Wrote? && w.n > 0 {
        Drain(w.n);
      }
    }

    /** The `n > 0` branch of `handleWrite`: move `n` buffered bytes to the
        wire and finish up if that empties the buffer. */
    method Drain(n: nat)
      requires Valid() && channel.IsWriting() && 0 < n <= outputBuffer.ReadableBytes()
      modifies this, channel, outputBuffer
      ensures Valid()
      ensures Stream() == old(Stream())
      ensures state == old(state) && highWaterMark == old(highWaterMark)
      ensures hasWriteCompleteCb == old(hasWriteCompleteCb) && hasHighWaterMarkCb == old(hasHighWaterMarkCb)
      ensures wire == old(wire) + old(outputBuffer.Contents())[..n]
      ensures outputBuffer.ReadableBytes() == 0 <==> n == old(outputBuffer.ReadableBytes())
      ensures n == old(outputBuffer.ReadableBytes()) ==>
                !channel.IsWriting()
                && effects == old(effects) + (if hasWriteCompleteCb then [QueueWriteComplete] else [])
                                           + (if state == Disconnecting then [ShutdownWrite] else [])
      ensures n < old(outputBuffer.ReadableBytes()) ==> channel.IsWriting() && effects == old(effects)
    {
      var sent := outputBuffer.Contents()[..n];
      outputBuffer.Retrieve(n);
      wire := wire + sent;
      assert Stream() == old(Stream()) by {
        assert old(outputBuffer.Contents()) == sent + outputBuffer.Contents();
      }
      if outputBuffer.ReadableBytes() == 0 {
        FinishDrain();
      }
    }

    /** The drained-buffer step of `handleWrite`: turn write interest off,
        queue the write-complete callback and finish a pending half-close. */
    method FinishDrain()
      requires inputBuffer != outputBuffer && channel.Valid() && inputBuffer.Valid() && outputBuffer.Valid()
      requires outputBuffer.ReadableBytes() == 0 && channel.IsWriting()
      requires (state == Connected || state == Disconnecting) && channel.tied
      modifies this, channel
      ensures Valid() && !channel.IsWriting()
      ensures effects == old(effects) + (if hasWriteCompleteCb then [QueueWriteComplete] else [])
                                      + (if state == Disconnecting then [ShutdownWrite] else [])
      ensures wire == old(wire) && state == old(state) && highWaterMark == old(highWaterMark)
      ensures hasWriteCompleteCb == old(hasWriteCompleteCb) && hasHighWaterMarkCb == old(hasHighWaterMarkCb)
    {
      channel.DisableWriting();
      if hasWriteCompleteCb {
        effects := effects + [QueueWriteComplete];
      }
      if state == Disconnecting {
        ShutdownInLoop();
      }
    }
  }

  /** A connection destroyed while disconnecting still has reading enabled,
      so the source's `connectDestroyed` reaches `remove()` with a nonempty
      mask. */
  method DestroyWhileDisconnecting() returns (removeAssertionHolds: bool)
    ensures !removeAssertionHolds
  {
    var conn := new TcpConnection(7);
    conn.ConnectEstablished();
    conn.Shutdown(true);
    assert conn.state == Disconnecting && conn.channel.IsReading();
    removeAssertionHolds := conn.ConnectDestroyedAsWritten();
  }

  /** The corrected teardown of the same connection removes the channel cleanly. */
  method DestroyWhileDisconnectingCorrected() returns (removed: bool)
    ensures removed
  {
    var conn := new TcpConnection(7);
    conn.ConnectEstablished();
    conn.Shutdown(true);
    conn.ConnectDestroyed();
    removed := conn.channel.IsNoneEvent() && conn.state == Disconnected;
  }
}
