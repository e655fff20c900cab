/** The client-side connector: it opens a non-blocking socket, classifies the
    `connect` result, waits for write readiness on the socket's channel, and
    retries with exponential back-off. The socket, the `connect` errno, the
    socket's `SO_ERROR` and its local/peer addresses are parameters; what
    the connector asks of its loop and of the socket layer is recorded in
    `effects`. */
module Connectors {
  import opened Channels

  // Linux errno values.
  const EPERM: int := 1
  const EINTR: int := 4
  const EBADF: int := 9
  const EAGAIN: int := 11
  const EACCES: int := 13
  const EFAULT: int := 14
  const ENOTSOCK: int := 88
  const EAFNOSUPPORT: int := 97
  const EADDRINUSE: int := 98
  const EADDRNOTAVAIL: int := 99
  const ENETUNREACH: int := 101
  const EISCONN: int := 106
  const ECONNREFUSED: int := 111
  const EALREADY: int := 114
  const EINPROGRESS: int := 115

  const MaxRetryDelayMs: nat := 30000
  const InitRetryDelayMs: nat := 500

  /** `States`. */
  datatype State = Disconnected | Connecting | Connected

  /** The three reactions of `connect()` to the `connect(2)` errno. */
  datatype ConnectClass = InProgress | Retryable | Fatal

  /** An IPv4 socket address, compared as `isSelfConnect` compares them. */
  datatype Endpoint = Endpoint(addr: nat, port: nat)

  /** Something the connector asks of its loop or of the socket layer. */
  datatype Effect =
    | CloseSocket(fd: int)              // `internal::close`
    | ScheduleStartInLoop(delayMs: nat) // `runAfter(delay, startInLoop)`
    | NewConnection(fd: int)            // `newConnectionCb_(sockfd)`
    | QueueResetChannel                 // `queueInLoop(resetChannel)`
    | QueueStopInLoop                   // `queueInLoop(stopInLoop)`
    | RunStartInLoop                    // `runInLoop(startInLoop)` from another thread

  predicate InProgressErrno(errno: int)
  {
    errno == 0 || errno == EINPROGRESS || errno == EINTR || errno == EISCONN
  }

  predicate RetryableErrno(errno: int)
  {
    errno == EAGAIN || errno == EADDRINUSE || errno == EADDRNOTAVAIL || errno == ECONNREFUSED || errno == ENETUNREACH
  }

  /** The `switch (savedErrno)` of `connect()`. The explicitly fatal errnos and
      every value the switch does not name end up in the same class. */
  function Classify(errno: int): (c: ConnectClass)
    ensures c == InProgress <==> InProgressErrno(errno)
    ensures c == Retryable <==> RetryableErrno(errno)
    ensures c == Fatal <==> !InProgressErrno(errno) && !RetryableErrno(errno)
  {
    if errno == 0 || errno == EINPROGRESS || errno == EINTR || errno == EISCONN then InProgress
    else if errno == EAGAIN || errno == EADDRINUSE || errno == EADDRNOTAVAIL || errno == ECONNREFUSED || errno == ENETUNREACH then Retryable
    else Fatal
  }

  /** The errnos the source lists as fatal are classified fatal, and so is any
      errno it does not list. */
  lemma ListedAndUnlistedAreFatal(errno: int)
    requires errno in {EACCES, EPERM, EAFNOSUPPORT, EALREADY, EBADF, EFAULT, ENOTSOCK} || errno !in {0, EINPROGRESS, EINTR, EISCONN, EAGAIN, EADDRINUSE, EADDRNOTAVAIL, ECONNREFUSED, ENETUNREACH}
    ensures Classify(errno) == Fatal
  {
  }

  /** `std::min(retryDelayMs_ * 2, kMaxRetryDelayMs)`. */
  function NextDelay(d: nat): (e: nat)
    ensures d <= e <= MaxRetryDelayMs || (d > MaxRetryDelayMs && e == MaxRetryDelayMs)
    ensures InitRetryDelayMs <= d <= MaxRetryDelayMs ==> InitRetryDelayMs <= e <= MaxRetryDelayMs
  {
    if d * 2 < MaxRetryDelayMs then d * 2 else MaxRetryDelayMs
  }

  /** The delay after `k` consecutive retries since the last reset. */
  function DelayAfter(k: nat): (d: nat)
    ensures InitRetryDelayMs <= d <= MaxRetryDelayMs
  {
    if k == 0 then InitRetryDelayMs else NextDelay(DelayAfter(k - 1))
  }

  function Pow2(k: nat): (p: nat)
    ensures p >= 1
  {
    if k == 0 then 1 else 2 * Pow2(k - 1)
  }

  /** Retries wait 500, 1000, 2000, 4000, 8000, 16000 ms and then 30000 ms
      for ever. */
  lemma {:induction false} DelaySchedule(k: nat)
    ensures k < 6 ==> DelayAfter(k) == InitRetryDelayMs * Pow2(k)
    ensures k >= 6 ==> DelayAfter(k) == MaxRetryDelayMs
  {
    if k > 0 {
      DelaySchedule(k - 1);
      if k == 6 {
        assert Pow2(5) == 32;
      } else if k < 6 {
        assert Pow2(k) == 2 * Pow2(k - 1);
        assert InitRetryDelayMs * Pow2(k - 1) <= 8000 by {
          Pow2Bound(k - 1);
        }
      }
    }
  }

  lemma {:induction false} Pow2Bound(k: nat)
    requires k < 5
    ensures Pow2(k) <= 16
  {
    if k > 0 {
      Pow2Bound(k - 1);
    }
  }

  /** Self-connection: the socket's local address is its peer address. */
  predicate IsSelfConnect(local: Endpoint, peer: Endpoint)
  {
    local.port == peer.port && local.addr == peer.addr
  }

  class Connector {
    var state: State
    var connectFlag: bool
    var retryDelayMs: nat
    /** `channel_`; after `removeAndResetChannel` it lingers, deregistered,
        until the queued `resetChannel` runs. */
    var channel: Channel?
    var effects: seq<Effect>

    /** Exactly while connecting there is a live channel waiting for write
        readiness; a lingering channel is deregistered with an empty mask;
        the delay stays within its bounds. */
    ghost predicate Valid()
      reads this, channel
    {
      (channel != null ==> channel.Valid() && (channel.events == WriteEvent || channel.events == NoneEvent))
      && (state == Connecting <==> channel != null && channel.events == WriteEvent)
      && InitRetryDelayMs <= retryDelayMs <= MaxRetryDelayMs
    }

    /** No live channel: none at all, or one deregistered with an empty mask. */
    ghost predicate ChannelRetired()
      reads this, channel
    {
      channel == null || (channel.Valid() && channel.events == NoneEvent)
    }

    constructor ()
      ensures Valid()
      ensures state == Disconnected && !connectFlag && retryDelayMs == InitRetryDelayMs
      ensures channel == null && effects == []
    {
      state := Disconnected;
      connectFlag := false;
      retryDelayMs := InitRetryDelayMs;
      channel := null;
      effects := [];
    }

    /** `retry(sockfd)`: close the socket, go back to disconnected and, if
        still wanted, schedule another attempt after the current delay and
        double the delay up to its cap. */
    method Retry(fd: int)
      requires ChannelRetired() && InitRetryDelayMs <= retryDelayMs <= MaxRetryDelayMs
      modifies this
      ensures Valid() && state == Disconnected
      ensures connectFlag == old(connectFlag) && channel == old(channel)
      ensures connectFlag ==>
                effects == old(effects) + [CloseSocket(fd), ScheduleStartInLoop(old(retryDelayMs))]
                && retryDelayMs == NextDelay(old(retryDelayMs))
      ensures !connectFlag ==> effects == old(effects) + [CloseSocket(fd)] && retryDelayMs == old(retryDelayMs)
    {
      effects := effects + [CloseSocket(fd)];
      state := Disconnected;
      if connectFlag {
        effects := effects + [ScheduleStartInLoop(retryDelayMs)];
        retryDelayMs := NextDelay(retryDelayMs);
      }
    }

    /** `connecting(sockfd)`: register a fresh channel for the socket and wait
        for it to become writable. */
    method EnterConnecting(fd: int)
      requires Valid() && channel == null
      modifies this
      ensures Valid() && state == Connecting
      ensures channel != null && fresh(channel) && channel.fd == fd
      ensures channel.IsWriting() && !channel.IsReading() && channel.requests == [UpdateChannel(WriteEvent)]
      ensures channel.slots == Slots(false, true, false, true)
      ensures connectFlag == old(connectFlag) && retryDelayMs == old(retryDelayMs) && effects == old(effects)
    {
      state := Connecting;
      var ch := new Channel(fd);
      ch.SetWriteCallback();
      ch.SetErrorCallback();
      ch.EnableWriting();
      channel := ch;
    }

    /** `connect()` on socket `fd`, whose `connect(2)` left `errno`: wait,
        retry, or give up and close the socket. */
    method Connect(fd: int, errno: int)
      requires Valid() && state == Disconnected && channel == null
      modifies this
      ensures Valid() && connectFlag == old(connectFlag)
      ensures Classify(errno) == InProgress ==>
                state == Connecting && channel != null && fresh(channel) && channel.fd == fd
                && effects == old(effects) && retryDelayMs == old(retryDelayMs)
      ensures Classify(errno) == Retryable ==>
                state == Disconnected && channel == null
                && effects == old(effects) + [CloseSocket(fd)]
                   + (if connectFlag then [ScheduleStartInLoop(old(retryDelayMs))] else [])
                && retryDelayMs == (if connectFlag then NextDelay(old(retryDelayMs)) else old(retryDelayMs))
      ensures Classify(errno) == Fatal ==>
                state == Disconnected && channel == null
                && effects == old(effects) + [CloseSocket(fd)] && retryDelayMs == old(retryDelayMs)
    {
      var c := Classify(errno);
      match c
      case InProgress => EnterConnecting(fd);
      case Retryable => Retry(fd);
      case Fatal => effects := effects + [CloseSocket(fd)];
    }

    /** `startInLoop()`: connect if still wanted; `fd` and `errno` are the
        socket and `connect(2)` result that attempt would get. */
    method StartInLoop(fd: int, errno: int)
      requires Valid() && state == Disconnected && channel == null
      modifies this
      ensures Valid() && connectFlag == old(connectFlag)
      ensures !connectFlag ==>
                state == Disconnected && channel == null && effects == old(effects) && retryDelayMs == old(retryDelayMs)
      ensures connectFlag ==> (state == Connecting <==> Classify(errno) == InProgress)
      ensures connectFlag && Classify(errno) != InProgress ==> state == Disconnected && channel == null
      ensures connectFlag && Classify(errno) == Retryable ==>
                effects == old(effects) + [CloseSocket(fd), ScheduleStartInLoop(old(retryDelayMs))]
                && retryDelayMs == NextDelay(old(retryDelayMs))
      ensures connectFlag && Classify(errno) == Fatal ==>
                effects == old(effects) + [CloseSocket(fd)] && retryDelayMs == old(retryDelayMs)
      ensures connectFlag && Classify(errno) == InProgress ==>
                effects == old(effects) && channel != null && fresh(channel) && channel.fd == fd
                && retryDelayMs == old(retryDelayMs)
    {
      if connectFlag {
        Connect(fd, errno);
      }
    }

    /** `start()`: want a connection; on the loop thread start at once,
        otherwise hand `startInLoop` to the loop. */
    method Start(inLoopThread: bool, fd: int, errno: int)
      requires Valid()
      requires inLoopThread ==> state == Disconnected && channel == null
      modifies this
      ensures Valid() && connectFlag
      ensures !inLoopThread ==>
                effects == old(effects) + [RunStartInLoop] && state == old(state) && channel == old(channel)
                && retryDelayMs == old(retryDelayMs)
      ensures inLoopThread ==> (state == Connecting <==> Classify(errno) == InProgress)
      ensures inLoopThread && Classify(errno) != InProgress ==> state == Disconnected && channel == null
      ensures inLoopThread && Classify(errno) == Retryable ==>
                effects == old(effects) + [CloseSocket(fd), ScheduleStartInLoop(old(retryDelayMs))]
                && retryDelayMs == NextDelay(old(retryDelayMs))
      ensures inLoopThread && Classify(errno) == Fatal ==>
                effects == old(effects) + [CloseSocket(fd)] && retryDelayMs == old(retryDelayMs)
      ensures inLoopThread && Classify(errno) == InProgress ==>
                effects == old(effects) && channel != null && fresh(channel) && channel.fd == fd
                && retryDelayMs == old(retryDelayMs)
    {
      connectFlag := true;
      if inLoopThread {
        StartInLoop(fd, errno);
      } else {
        effects := effects + [RunStartInLoop];
      }
    }

    /** `restart()`: forget the back-off and start over. */
    method Restart(fd: int, errno: int)
      requires Valid() && channel == null
      modifies this
      ensures Valid() && connectFlag
      ensures state == Connecting <==> Classify(errno) == InProgress
      ensures Classify(errno) != InProgress ==> state == Disconnected && channel == null
      ensures Classify(errno) == InProgress ==>
                effects == old(effects) && retryDelayMs == InitRetryDelayMs
                && channel != null && fresh(channel) && channel.fd == fd
      ensures Classify(errno) == Retryable ==>
                effects == old(effects) + [CloseSocket(fd), ScheduleStartInLoop(InitRetryDelayMs)]
                && retryDelayMs == NextDelay(InitRetryDelayMs)
      ensures Classify(errno) == Fatal ==> effects == old(effects) + [CloseSocket(fd)] && retryDelayMs == InitRetryDelayMs
    {
      state := Disconnected;
      retryDelayMs := InitRetryDelayMs;
      connectFlag := true;
      StartInLoop(fd, errno);
    }

    /** `stop()`: no longer want a connection; the loop is asked to run `stopInLoop`. */
    method Stop()
      modifies this
      ensures !connectFlag && effects == old(effects) + [QueueStopInLoop]
      ensures state == old(state) && channel == old(channel) && retryDelayMs == old(retryDelayMs)
    {
      connectFlag := false;
      effects := effects + [QueueStopInLoop];
    }

    /** `removeAndResetChannel()`: deregister the live channel; the slot is
        cleared later by the queued `resetChannel`. */
    method RemoveAndResetChannel() returns (fd: int)
      requires channel != null && channel.Valid() && channel.events == WriteEvent
      modifies this, channel
      ensures channel == old(channel) && channel != null && fd == channel.fd
      ensures ChannelRetired() && channel.IsNoneEvent()
      ensures channel.requests == old(channel.requests) + [UpdateChannel(NoneEvent), RemoveChannel]
      ensures effects == old(effects) + [QueueResetChannel]
      ensures state == old(state) && connectFlag == old(connectFlag) && retryDelayMs == old(retryDelayMs)
    {
      channel.DisableAll();
      channel.Remove();
      fd := channel.fd;
      effects := effects + [QueueResetChannel];
    }

    /** `resetChannel()`. */
    method ResetChannel()
      requires Valid() && state != Connecting
      modifies this
      ensures Valid() && channel == null
      ensures state == old(state) && connectFlag == old(connectFlag)
      ensures retryDelayMs == old(retryDelayMs) && effects == old(effects)
    {
      channel := null;
    }

    /** `stopInLoop()`: abandon an attempt in progress. With `connect_`
        cleared by `stop`, the retry schedules nothing; if `start` or
        `restart` set it again before this ran, the retry reschedules. */
    method StopInLoop()
      requires Valid()
      modifies this, channel
      ensures Valid() && state == (if old(state) == Connecting then Disconnected else old(state))
      ensures connectFlag == old(connectFlag)
      ensures old(state) == Connecting && !connectFlag ==>
                effects == old(effects) + [QueueResetChannel, CloseSocket(old(channel).fd)]
                && retryDelayMs == old(retryDelayMs)
      ensures old(state) == Connecting && connectFlag ==>
                effects == old(effects) + [QueueResetChannel, CloseSocket(old(channel).fd), ScheduleStartInLoop(old(retryDelayMs))]
                && retryDelayMs == NextDelay(old(retryDelayMs))
      ensures old(state) != Connecting ==> effects == old(effects) && retryDelayMs == old(retryDelayMs)
    {
      if state == Connecting {
        state := Disconnected;
        var fd := RemoveAndResetChannel();
        Retry(fd);
      }
    }

    /** `handleWrite()`: the socket became writable. `soError` is its
        `SO_ERROR`; `local` and `peer` are its addresses. An error or a
        self-connection retries; otherwise the connection is up and is handed
        over if still wanted, else closed. A write event while disconnected
        is ignored; while connected it is excluded by the source's assertion. */
    method HandleWrite(soError: int, local: Endpoint, peer: Endpoint)
      requires Valid() && state != Connected
      modifies this, channel
      ensures Valid() && connectFlag == old(connectFlag)
      ensures old(state) == Disconnected ==>
                state == Disconnected && effects == old(effects) && retryDelayMs == old(retryDelayMs)
      ensures old(state) == Connecting && (soError != 0 || IsSelfConnect(local, peer)) ==>
                state == Disconnected
                && effects == old(effects) + [QueueResetChannel, CloseSocket(old(channel).fd)]
                   + (if connectFlag then [ScheduleStartInLoop(old(retryDelayMs))] else [])
                && retryDelayMs == (if connectFlag then NextDelay(old(retryDelayMs)) else old(retryDelayMs))
      ensures old(state) == Connecting && soError == 0 && !IsSelfConnect(local, peer) ==>
                state == Connected && retryDelayMs == old(retryDelayMs)
                && effects == old(effects) + [QueueResetChannel]
                   + (if connectFlag then [NewConnection(old(channel).fd)] else [CloseSocket(old(channel).fd)])
    {
      if state == Connecting {
        var fd := RemoveAndResetChannel();
        if soError != 0 {
          Retry(fd);
        } else if local.port == peer.port && local.addr == peer.addr {
          Retry(fd);
        } else {
          state := Connected;
          if connectFlag {
            effects := effects + [NewConnection(fd)];
          } else {
            effects := effects + [CloseSocket(fd)];
          }
        }
      }
    }

    /** `handleError()`: an error on the socket while connecting retries. */
    method HandleError()
      requires Valid()
      modifies this, channel
      ensures Valid() && connectFlag == old(connectFlag)
      ensures old(state) == Connecting ==>
                state == Disconnected
                && effects == old(effects) + [QueueResetChannel, CloseSocket(old(channel).fd)]
                   + (if connectFlag then [ScheduleStartInLoop(old(retryDelayMs))] else [])
                && retryDelayMs == (if connectFlag then NextDelay(old(retryDelayMs)) else old(retryDelayMs))
      ensures old(state) != Connecting ==>
                state == old(state) && effects == old(effects) && retryDelayMs == old(retryDelayMs)
    {
      if state == Connecting {
        var fd := RemoveAndResetChannel();
        Retry(fd);
      }
    }
  }
}
